/** Converting a flow graph to the array form: count the slots, fill them from the tail,
    and retry with one more long jump whenever a branch cannot reach. */
module Flatten {
  import opened Bpf
  import opened Blocks
  import opened Layout
  import opened Program
  import opened Reach
  import opened Placement

  lemma {:induction false} SlotsPush(g: Graph, L: Marks, e: seq<Id>, p: Id)
    requires Within(g, e) && p < |g| == |L|
    ensures Within(g, e + [p]) && Slots(g, L, e + [p]) == Slots(g, L, e) + BlockSlots(g, L, p)
  {
    assert (e + [p])[..|e|] == e;
  }

  lemma {:induction false} LivePush(ss: seq<Stmt>, s: Stmt)
    ensures Live(ss + [s]) == Live(ss) + (if s.Nop? then [] else [s])
  {
    if |ss| == 0 {
      assert ss + [s] == [s];
    } else {
      assert (ss + [s])[1..] == ss[1..] + [s];
      LivePush(ss[1..], s);
    }
  }

  lemma {:induction false} LiveMono(ss: seq<Stmt>, i: nat)
    requires i <= |ss|
    ensures Live(ss[..i]) <= Live(ss)
    decreases |ss| - i
  {
    if i < |ss| {
      assert ss[..i+1] == ss[..i] + [ss[i]];
      LivePush(ss[..i], ss[i]);
      LiveMono(ss, i + 1);
    } else {
      assert ss[..i] == ss;
    }
  }

  method Slength(stmts: seq<Stmt>) returns (n: nat)
    ensures n == |Live(stmts)|
  {
    n := 0;
    var i := 0;
    while i < |stmts|
      invariant i <= |stmts| && n + |Live(stmts[i..])| == |Live(stmts)|
    {
      if !stmts[i].Nop? { n := n + 1; }
      i := i + 1;
    }
  }

  /** Copy the statements that are not NOPs. */
  method EmitStmts(fcode: array<Insn>, at: nat, stmts: seq<Stmt>) returns (dst: nat)
    requires at + |Live(stmts)| <= fcode.Length
    modifies fcode
    ensures dst == at + |Live(stmts)| && fcode[at..dst] == Dos(Live(stmts))
    ensures forall i :: 0 <= i < fcode.Length && !(at <= i < dst) ==> fcode[i] == old(fcode[i])
  {
    dst := at;
    var i := 0;
    assert stmts[..0] == [];
    while i < |stmts|
      invariant i <= |stmts| && Live(stmts[..i]) <= Live(stmts)
      invariant dst == at + |Live(stmts[..i])| <= fcode.Length
      invariant fcode[at..dst] == Dos(Live(stmts[..i]))
      invariant forall j :: 0 <= j < fcode.Length && !(at <= j < dst) ==> fcode[j] == old(fcode[j])
    {
      assert stmts[..i+1] == stmts[..i] + [stmts[i]];
      LivePush(stmts[..i], stmts[i]);
      LiveMono(stmts, i + 1);
      if !stmts[i].Nop? {
        fcode[dst] := Do(stmts[i]);
        dst := dst + 1;
        assert fcode[at..dst] == fcode[at..dst-1] + [Do(stmts[i])];
      }
      i := i + 1;
    }
    assert stmts[..i] == stmts;
  }

  /** Fill in the end of a block. offt and offf are the displacements of its successors.
      Fails, naming the side, when a branch needs a mark it does not have. */
  method EmitBranch(fcode: array<Insn>, dst: nat, s: Branch, m: Mark, offt: nat, offf: nat) returns (ok: bool, side: bool)
    requires m.t <= 1 && m.f <= 1 && dst + 1 + m.t + m.f <= fcode.Length
    requires if s.Jmp? then (m.t == 1 ==> 256 <= offt) && (m.f == 1 ==> 256 <= offf) else m == Mark(0, 0)
    modifies fcode
    ensures forall i :: 0 <= i < dst || dst + 1 + m.t + m.f <= i < fcode.Length ==> fcode[i] == old(fcode[i])
    ensures ok && s.Jmp? ==> Fits(m, offt, offf)
    ensures ok ==> fcode[dst..dst + 1 + m.t + m.f] == Exit(s, m, offt, offf)
    ensures !ok ==> s.Jmp? && m.At(side) == 0 && 256 <= (if side then offt else offf)
  {
    side := true;
    match s
    case RetK(k) => fcode[dst] := StopK(k); return true, side;
    case RetA => fcode[dst] := StopA; return true, side;
    case Jmp(op, src) =>
      var extrajmps := 0;
      var jt: Short, jf: Short := 0, 0;
      if offt >= 256 {
        if m.t == 0 { return false, true; }
        jt := extrajmps;
        extrajmps := extrajmps + 1;
        fcode[dst + extrajmps] := Ja(offt - extrajmps);
      } else {
        jt := offt;
      }
      if offf >= 256 {
        if m.f == 0 { return false, false; }
        jf := extrajmps;
        extrajmps := extrajmps + 1;
        fcode[dst + extrajmps] := Ja(offf - extrajmps);
      } else {
        jf := offf;
      }
      fcode[dst] := If(op, src, jt, jf);
      return true, side;
  }

  /** Writing below the blocks already placed, and placing a new one, does not disturb them. */
  lemma {:induction false} PlacedKept(g: Graph, L: Marks, at: seq<nat>, at': seq<nat>, code: seq<Insn>, code': seq<Insn>, b: Id)
    requires Closed(g) && b < |g| == |at| == |at'| == |L| && |code| == |code'|
    requires PlacedAt(g, L, at, code, b)
    requires forall i :: at[b] <= i < |code| ==> code[i] == code'[i]
    requires at'[b] == at[b] && (g[b].s.Jmp? ==> at'[g[b].jt] == at[g[b].jt] && at'[g[b].jf] == at[g[b].jf])
    ensures PlacedAt(g, L, at', code', b)
  {
    var k := |Live(g[b].stmts)|;
    assert code[at[b]..at[b] + k] == code'[at[b]..at[b] + k];
    assert code[at[b] + k..at[b] + BlockSlots(g, L, b)] == code'[at[b] + k..at[b] + BlockSlots(g, L, b)];
  }

  /** Done blocks stand where the layout says, with their instructions in place. */
  ghost predicate AllDone(g: Graph, L: Marks, at: seq<nat>, code: seq<Insn>, done: seq<Id>)
    requires Closed(g) && |g| == |at| == |L| && Within(g, done)
  {
    forall b {:trigger PlacedAt(g, L, at, code, b)} :: b in done ==>
      at[b] == |code| - Below(g, L, done, b) && PlacedAt(g, L, at, code, b)
  }

  /** Displacements out of the block placed next do not depend on what comes after it. */
  lemma {:induction false} NextDisp(g: Graph, L: Marks, ord: seq<Id>, e: seq<Id>, p: Id, side: bool)
    requires Ordered(g, ord) && p < |L| == |g| && Ordered(g, e) && e + [p] <= ord && Ordered(g, e + [p]) && g[p].s.Jmp?
    ensures p in ord && g[p].Succ(side) in e && g[p].Succ(side) in ord
    ensures Disp(g, L, ord, p, side)
         == Slots(g, L, e + [p]) - Below(g, L, e, g[p].Succ(side)) - |Live(g[p].stmts)| - 1 >= L[p].t + L[p].f
  {
    assert AfterSuccs(g, e + [p], |e|) && (e + [p])[..|e|] == e;
    assert g[p].Succ(side) in SuccSet(g, p);
    assert p in e + [p];
    BelowPrefix(g, L, e + [p], ord, p);
    BelowPrefix(g, L, e, e + [p], g[p].Succ(side));
    BelowPrefix(g, L, e, ord, g[p].Succ(side));
    DispNonNegative(g, L, ord, p, side);
  }

  /** The operand computed from the offsets is the displacement of the layout. */
  lemma {:induction false} NextHop(g: Graph, L: Marks, at: seq<nat>, code: seq<Insn>, ord: seq<Id>, e: seq<Id>, p: Id, side: bool)
    requires Closed(g) && Ordered(g, ord) && p < |L| == |g| == |at| && Ordered(g, e) && e + [p] <= ord && Ordered(g, e + [p])
    requires g[p].s.Jmp? && p !in e && Slots(g, L, e + [p]) <= |code| && AllDone(g, L, at, code, e)
    ensures p in ord && g[p].Succ(side) in ord && Disp(g, L, ord, p, side) >= 0
    ensures Hop(g, at[p := |code| - Slots(g, L, e + [p])], p, side) == Disp(g, L, ord, p, side)
  {
    NextDisp(g, L, ord, e, p, side);
    assert PlacedAt(g, L, at, code, g[p].Succ(side));
  }

  /** Placing p below the blocks of e. */
  lemma {:induction false} DonePush(g: Graph, L: Marks, at: seq<nat>, at': seq<nat>, code: seq<Insn>, code': seq<Insn>,
                                    e: seq<Id>, p: Id)
    requires Closed(g) && |g| == |at| == |L| && |code| == |code'| && Ordered(g, e) && Ordered(g, e + [p])
    requires p !in e && Slots(g, L, e + [p]) <= |code|
    requires AllDone(g, L, at, code, e)
    requires at' == at[p := |code| - Slots(g, L, e + [p])]
    requires forall i :: |code| - Slots(g, L, e) <= i < |code| ==> 0 <= i && code[i] == code'[i]
    requires PlacedAt(g, L, at', code', p)
    ensures AllDone(g, L, at', code', e + [p])
  {
    forall b | b in e + [p]
      ensures at'[b] == |code| - Below(g, L, e + [p], b) && PlacedAt(g, L, at', code', b)
    {
      BelowPrefix(g, L, e + [p], e + [p], b);
      if b != p {
        BelowPrefix(g, L, e, e + [p], b);
        BelowPrefix(g, L, e, e, b);
        assert PlacedAt(g, L, at, code, b);
        if g[b].s.Jmp? { OrderedClosed(g, e); assert SuccSet(g, b) <= Elems(e); assert g[b].jt in SuccSet(g, b) && g[b].jf in SuccSet(g, b); }
        PlacedKept(g, L, at, at', code, code', b);
      }
    }
  }

  /** L' is L with one mark set that was clear. */
  ghost predicate MarkedOneMore(g: Graph, L: Marks, L': Marks) {
    exists b: Id, side ::
      && b < |g| == |L| && g[b].s.Jmp? && L[b].At(side) == 0 && L' == SetMark(L, b, side)
  }

  /** The marks that are still clear. */
  function Spare(L: Marks): nat
  {
    if |L| == 0 then 0
    else Spare(L[..|L|-1]) + (if L[|L|-1].t == 0 then 1 else 0) + (if L[|L|-1].f == 0 then 1 else 0)
  }

  lemma {:induction false} SpareAll(L: Marks)
    requires forall b :: 0 <= b < |L| ==> L[b] == Mark(0, 0)
    ensures Spare(L) == 2 * |L|
  {
    if |L| != 0 { SpareAll(L[..|L|-1]); }
  }

  lemma {:induction false} SpareSet(L: Marks, b: Id, side: bool)
    requires b < |L| && L[b].At(side) == 0
    ensures Spare(SetMark(L, b, side)) == Spare(L) - 1
  {
    var n := |L| - 1;
    if b < n {
      SpareSet(L[..n], b, side);
      assert SetMark(L, b, side)[..n] == SetMark(L[..n], b, side);
    } else {
      assert SetMark(L, b, side)[..n] == L[..n];
    }
  }

  lemma {:induction false} SpareDrops(g: Graph, L: Marks, L': Marks)
    requires MarkedOneMore(g, L, L')
    ensures Spare(L') == Spare(L) - 1
  {
    var b: Id, side :| b < |g| == |L| && g[b].s.Jmp? && L[b].At(side) == 0 && L' == SetMark(L, b, side);
    SpareSet(L, b, side);
  }

  /** What a finished array is: each block reached from the root at its place in the layout,
      tiling the program, with a long jump wherever, and only where, a branch cannot reach. */
  ghost predicate Assembled(g: Graph, lv: Levels, L: Marks, at: seq<nat>, code: seq<Insn>, root: Id)
    requires Leveled(g, lv) && root < |g|
  {
    var ord := Visit(g, lv, root, [], false);
    && |g| == |at| && MarksFor(g, L)
    && Ordered(g, ord) && root in ord && Stable(g, L, ord)
    && |code| == Slots(g, L, ord) && AllDone(g, L, at, code, ord)
  }

  /** Counting and placing from the root start clean and agree on the number of slots. */
  lemma {:induction false} RootOrders(g: Graph, lv: Levels, L: Marks, root: Id)
    requires Leveled(g, lv) && root < |g| == |L|
    ensures Ordered(g, []) && Slots(g, L, []) == 0 && Agrees({}, lv, root, [])
    ensures var x, y := Visit(g, lv, root, [], true), Visit(g, lv, root, [], false);
      Ordered(g, x) && Ordered(g, y) && root in y && Slots(g, L, x) == Slots(g, L, y)
  {
    VisitOrdered(g, lv, root, [], false);
    VisitOrdered(g, lv, root, [], true);
    VisitSameElems(g, lv, root);
    SlotsSame(g, L, Visit(g, lv, root, [], true), Visit(g, lv, root, [], false));
  }

  ghost predicate Stable0(g: Graph, lv: Levels, L: Marks, root: Id)
    requires Leveled(g, lv) && root < |g|
  {
    var ord := Visit(g, lv, root, [], false);
    Ordered(g, ord) && |L| == |g| && Stable(g, L, ord)
  }

  lemma {:induction false} AssembledFacts(g: Graph, lv: Levels, L: Marks, at: seq<nat>, code: seq<Insn>, root: Id)
    requires Leveled(g, lv) && root < |g| && Assembled(g, lv, L, at, code, root)
    ensures at[root] == 0
    ensures Forward(code)
    ensures forall b {:trigger Adjoins(g, lv, L, at, root, b)} :: 0 <= b < |g| && Leads(g, root, b) && g[b].s.Jmp? ==> Adjoins(g, lv, L, at, root, b)
    ensures forall st: State, p, fuel: nat :: lv[root] < fuel ==> RunCode(code, 0, st, p) == Run(g, root, st, p, fuel)
  {
    var ord := Visit(g, lv, root, [], false);
    hide Visit, Stable, Adjoins, Leads;
    AssembledAdjoins(g, lv, L, at, code, root);
    AssembledRoot(g, lv, L, at, code, root);
    AssembledForward(g, L, at, code, ord);
    OrderedClosed(g, ord);
    forall b | b in Elems(ord) ensures PlacedAt(g, L, at, code, b) { }
    forall st: State, p, fuel: nat | lv[root] < fuel ensures RunCode(code, 0, st, p) == Run(g, root, st, p, fuel) {
      FlattenSimulates(g, lv, L, at, code, Elems(ord), root, st, p, fuel);
    }
  }

  lemma {:induction false} AssembledAdjoins(g: Graph, lv: Levels, L: Marks, at: seq<nat>, code: seq<Insn>, root: Id)
    requires Leveled(g, lv) && root < |g| && Assembled(g, lv, L, at, code, root)
    ensures forall b {:trigger Adjoins(g, lv, L, at, root, b)} :: 0 <= b < |g| && Leads(g, root, b) && g[b].s.Jmp? ==> Adjoins(g, lv, L, at, root, b)
  {
    hide Visit, Stable, Adjoins, Leads;
    var ord := Visit(g, lv, root, [], false);
    forall c | c in ord ensures at[c] == |code| - Below(g, L, ord, c) { assert PlacedAt(g, L, at, code, c); }
    forall b: Id | b < |g| && Leads(g, root, b) && g[b].s.Jmp? ensures Adjoins(g, lv, L, at, root, b) {
      NoneOrdered(g);
      VisitAdds(g, lv, root, [], false, b);
      TargetsAdjoin(g, lv, L, at, root, |code|, b);
    }
  }

  lemma {:induction false} AssembledRoot(g: Graph, lv: Levels, L: Marks, at: seq<nat>, code: seq<Insn>, root: Id)
    requires Leveled(g, lv) && root < |g| && Assembled(g, lv, L, at, code, root)
    ensures at[root] == 0
  {
    var d := Visit(g, lv, g[root].Succ(false), [], false);
    var e := Visit(g, lv, g[root].Succ(true), d, false);
    assert Visit(g, lv, root, [], false) == e + [root];
    assert PlacedAt(g, L, at, code, root);
  }

  lemma {:induction false} AssembledForward(g: Graph, L: Marks, at: seq<nat>, code: seq<Insn>, ord: seq<Id>)
    requires Closed(g) && Ordered(g, ord) && MarksFor(g, L) && |g| == |at|
    requires |code| == Slots(g, L, ord) && AllDone(g, L, at, code, ord)
    ensures Forward(code)
  {
    forall i | 0 <= i < |code| ensures ForwardAt(code, i) {
      var b := SlotOwner(g, L, ord, |code| - i);
      assert PlacedAt(g, L, at, code, b);
      if g[b].s.Jmp? {
        DispNonNegative(g, L, ord, b, true);
        DispNonNegative(g, L, ord, b, false);
        BelowPrefix(g, L, ord, ord, g[b].jt);
        BelowPrefix(g, L, ord, ord, g[b].jf);
        assert PlacedAt(g, L, at, code, g[b].jt) && PlacedAt(g, L, at, code, g[b].jf);
      }
      PlacedForward(g, L, at, code, b, i);
    }
  }

  lemma {:induction false} MarksPair(g: Graph, L: Marks, p: Id)
    requires MarksFor(g, L) && p < |g|
    ensures |L| == |g| && L[p].t <= 1 && L[p].f <= 1
  {
  }

  /** What the end of p may rely on: a mark is set only on a branch that cannot reach. */
  lemma {:induction false} ExitMarks(g: Graph, L: Marks, ord: seq<Id>, p: Id, offt: int, offf: int)
    requires MarksFor(g, L) && p < |g| && p in ord && Ordered(g, ord) && Stable(g, L, ord)
    requires g[p].s.Jmp? ==>
      && g[p].Succ(true) in ord && offt == Disp(g, L, ord, p, true)
      && g[p].Succ(false) in ord && offf == Disp(g, L, ord, p, false)
    ensures L[p].t <= 1 && L[p].f <= 1
    ensures if g[p].s.Jmp? then (L[p].t == 1 ==> 256 <= offt) && (L[p].f == 1 ==> 256 <= offf) else L[p] == Mark(0, 0)
  {
    hide Disp;
    assert L[p].At(true) == L[p].t && L[p].At(false) == L[p].f;
  }

  /** Statements followed by the end of the block are the block in its place. */
  lemma {:induction false} PiecesPlaced(g: Graph, L: Marks, at: seq<nat>, code: seq<Insn>, p: Id, dst: nat, end: nat)
    requires Closed(g) && p < |g| == |at| == |L|
    requires dst == at[p] + |Live(g[p].stmts)| && end == at[p] + BlockSlots(g, L, p) <= |code|
    requires code[at[p]..dst] == Dos(Live(g[p].stmts))
    requires g[p].s.Jmp? ==> Fits(L[p], HopT(g, at, p), HopF(g, at, p))
    requires code[dst..end] == Exit(g[p].s, L[p], HopT(g, at, p), HopF(g, at, p))
    ensures PlacedAt(g, L, at, code, p)
  {
    hide Fits, Exit, HopT, HopF, Dos, Live, BlockSlots;
  }

  class Assembler {
    const g: Graph
    var mark: seq<nat>
    var curMark: nat
    var long: Marks
    var offset: seq<nat>
    var fcode: array<Insn>
    var ftail: nat

    ghost predicate Valid()
      reads this
    {
      && |mark| == |offset| == |g| && MarksFor(g, long)
      && forall i :: 0 <= i < |mark| ==> mark[i] <= curMark
    }

    constructor (g: Graph)
      ensures Valid() && this.g == g && forall b :: 0 <= b < |g| ==> long[b] == Mark(0, 0)
    {
      this.g := g;
      mark, curMark := seq(|g|, _ => 0), 0;
      long, offset := seq(|g|, _ => Mark(0, 0)), seq(|g|, _ => 0);
      fcode, ftail := new Insn[0], 0;
    }

    ghost function Marked(): (M: set<Id>)
      reads this
      ensures forall b :: b in M <==> 0 <= b < |mark| && mark[b] == curMark
    {
      set b | 0 <= b < |mark| && mark[b] == curMark
    }

    method UnMarkAll()
      requires Valid()
      modifies `curMark
      ensures Valid() && Marked() == {}
    {
      curMark := curMark + 1;
    }

    method MarkBlock(p: Id)
      requires Valid() && p < |g|
      modifies `mark
      ensures Valid() && Marked() == old(Marked()) + {p}
    {
      mark := mark[p := curMark];
    }

    /** The number of slots that the blocks first reached from p need. */
    method CountStmts(p: Ref, ghost lv: Levels, ghost done: seq<Id>) returns (n: nat)
      requires Valid() && Leveled(g, lv) && p < |g|
      requires Ordered(g, done) && Agrees(Marked(), lv, p, done)
      modifies `mark
      ensures Valid() && Ordered(g, Visit(g, lv, p, done, true))
      ensures n == Slots(g, long, Visit(g, lv, p, done, true)) - Slots(g, long, done)
      ensures Marked() == old(Marked()) + Elems(Visit(g, lv, p, done, true))
      decreases if p == NIL then 0 else lv[p] + 1
    {
      hide Agrees, Ordered, Elems, Visit, Slots, Marked;
      ghost var M := Marked();
      if p == NIL || mark[p] == curMark {
        VisitNothing(g, lv, M, p, done, true);
        return 0;
      }
      ghost var d, e := Unfold(g, lv, M, p, done, true);
      SlotsPush(g, long, e, p);
      MarkBlock(p);
      var nt := CountStmts(g[p].jt, lv, done);
      var nf := CountStmts(g[p].jf, lv, d);
      var k := Slength(g[p].stmts);
      n := k + (nt + nf) + 1 + long[p].t + long[p].f;
    }

    method EmitBlock(p: Id, ghost ord: seq<Id>) returns (ok: bool)
      requires Valid() && Closed(g) && p < |g| && p in ord && Ordered(g, ord) && Stable(g, long, ord)
      requires offset[p] + BlockSlots(g, long, p) <= fcode.Length
      requires g[p].s.Jmp? ==>
        && g[p].Succ(true) in ord && Hop(g, offset, p, true) == Disp(g, long, ord, p, true) >= 0
        && g[p].Succ(false) in ord && Hop(g, offset, p, false) == Disp(g, long, ord, p, false) >= 0
      modifies `long, fcode
      ensures Valid()
      ensures forall i :: offset[p] + old(BlockSlots(g, long, p)) <= i < fcode.Length ==> fcode[i] == old(fcode[i])
      ensures ok ==> long == old(long) && PlacedAt(g, long, offset, fcode[..], p)
      ensures !ok ==> MarkedOneMore(g, old(long), long) && Stable(g, long, ord)
    {
      hide PlacedAt, Stable, MarksFor, Fits, Exit, Disp, Ordered;
      MarksPair(g, long, p);
      var dst := EmitStmts(fcode, offset[p], g[p].stmts);
      ghost var body := fcode[offset[p]..dst];
      var offt, offf := 0, 0;
      if g[p].s.Jmp? {
        offt := offset[g[p].jt] - dst - 1;
        offf := offset[g[p].jf] - dst - 1;
      }
      ExitMarks(g, long, ord, p, offt, offf);
      var side;
      ok, side := EmitBranch(fcode, dst, g[p].s, long[p], offt, offf);
      if ok {
        ghost var end := dst + 1 + long[p].t + long[p].f;
        assert fcode[offset[p]..dst] == body;
        assert fcode[..][offset[p]..dst] == body && fcode[..][dst..end] == fcode[dst..end];
        PiecesPlaced(g, long, offset, fcode[..], p, dst, end);
      } else {
        StableGrows(g, long, ord, p, side);
        long := SetMark(long, p, side);
      }
    }

    /** Reserve the slots of p just below the blocks of e and fill them in. */
    method PlaceBlock(p: Id, ghost ord: seq<Id>, ghost e: seq<Id>) returns (ok: bool)
      requires Valid() && Closed(g) && p < |g|
      requires Ordered(g, ord) && Stable(g, long, ord)
      requires Ordered(g, e) && Ordered(g, e + [p]) && p !in e && e + [p] <= ord
      requires fcode.Length == Slots(g, long, ord) && ftail == fcode.Length - Slots(g, long, e)
      requires AllDone(g, long, offset, fcode[..], e)
      modifies `ftail, `offset, `long, fcode
      ensures Valid()
      ensures ok ==> long == old(long) && ftail == fcode.Length - Slots(g, long, e + [p])
      ensures ok ==> AllDone(g, long, offset, fcode[..], e + [p])
      ensures !ok ==> MarkedOneMore(g, old(long), long) && Stable(g, long, ord)
    {
      var slen := Slength(g[p].stmts);
      SlotsPush(g, long, e, p);
      SlotsPrefix(g, long, e + [p], ord);
      ftail := ftail - (slen + 1 + long[p].t + long[p].f);
      offset := offset[p := ftail];
      assert (e + [p])[|e|] == p && p in ord;
      if g[p].s.Jmp? {
        NextHop(g, long, old(offset), fcode[..], ord, e, p, true);
        NextHop(g, long, old(offset), fcode[..], ord, e, p, false);
      }
      ghost var code := fcode[..];
      ok := EmitBlock(p, ord);
      if ok {
        DonePush(g, long, old(offset), offset, code, fcode[..], e, p);
      }
    }

    /** Place the blocks first reached from p, from the tail down. Fails, adding one mark,
        when a branch cannot reach its target and has no long jump reserved. */
    method ConvertCodeR(p: Ref, ghost lv: Levels, ghost ord: seq<Id>, ghost done: seq<Id>) returns (ok: bool)
      requires Valid() && Leveled(g, lv) && p < |g|
      requires Ordered(g, ord) && Stable(g, long, ord)
      requires Ordered(g, done) && Agrees(Marked(), lv, p, done) && Visit(g, lv, p, done, false) <= ord
      requires fcode.Length == Slots(g, long, ord) && ftail == fcode.Length - Slots(g, long, done)
      requires AllDone(g, long, offset, fcode[..], done)
      modifies `mark, `ftail, `offset, `long, fcode
      ensures Valid() && Ordered(g, Visit(g, lv, p, done, false))
      ensures ok ==> long == old(long) && ftail == fcode.Length - Slots(g, long, Visit(g, lv, p, done, false))
      ensures ok ==> AllDone(g, long, offset, fcode[..], Visit(g, lv, p, done, false))
      ensures ok ==> Marked() == old(Marked()) + Elems(Visit(g, lv, p, done, false))
      ensures !ok ==> MarkedOneMore(g, old(long), long) && Stable(g, long, ord)
      decreases if p == NIL then 0 else lv[p] + 1
    {
      hide Agrees, Ordered, Elems, Visit, Slots, Marked, Stable, AllDone, PlacedAt, MarksFor;
      VisitOrdered(g, lv, p, done, false);
      ghost var M := Marked();
      if p == NIL || mark[p] == curMark {
        VisitNothing(g, lv, M, p, done, false);
        return true;
      }
      ghost var d, e := Unfold(g, lv, M, p, done, false);
      MarkBlock(p);
      ok := ConvertCodeR(g[p].jf, lv, ord, done);
      if !ok { return; }
      ok := ConvertCodeR(g[p].jt, lv, ord, d);
      if !ok { return; }
      ok := PlaceBlock(p, ord, e);
    }

    /** Count, clear an array of that size, and try to fill it. */
    method Attempt(root: Id, ghost lv: Levels) returns (ok: bool)
      requires Valid() && Leveled(g, lv) && root < |g| && Stable0(g, lv, long, root)
      modifies this
      ensures Valid() && fresh(fcode)
      ensures ok ==> long == old(long) && Assembled(g, lv, long, offset, fcode[..], root)
      ensures !ok ==> MarkedOneMore(g, old(long), long) && Stable0(g, lv, long, root)
    {
      hide Ordered, Visit, Stable, PlacedAt, MarksFor, Agrees, Marked, Elems, Slots, NoDup, Below;
      RootOrders(g, lv, long, root);
      ghost var ord := Visit(g, lv, root, [], false);
      UnMarkAll();
      var n := CountStmts(root, lv, []);
      fcode := new Insn[n](_ => CLEARED);
      ftail := n;
      UnMarkAll();
      ok := ConvertCodeR(root, lv, ord, []);
    }

    /** The array form of the graph, and the number of attempts that had to be given up. */
    method IcodeToFcode(root: Id, ghost lv: Levels) returns (code: array<Insn>, ghost retries: nat)
      requires Valid() && Leveled(g, lv) && root < |g| && forall b :: 0 <= b < |g| ==> long[b] == Mark(0, 0)
      modifies this
      ensures Valid() && fresh(code)
      ensures Assembled(g, lv, long, offset, code[..], root)
      ensures forall st: State, p, fuel: nat :: lv[root] < fuel ==>
        RunCode(code[..], 0, st, p) == Run(g, root, st, p, fuel)
      ensures Forward(code[..])
      ensures forall b {:trigger Adjoins(g, lv, long, offset, root, b)} :: 0 <= b < |g| && Leads(g, root, b) && g[b].s.Jmp? ==> Adjoins(g, lv, long, offset, root, b)
      ensures retries + Spare(long) == 2 * |g|
    {
      VisitOrdered(g, lv, root, [], false);
      retries := 0;
      SpareAll(long);
      hide Ordered, Visit, Stable, Assembled, MarksFor, Adjoins, Leads;
      var ok := false;
      while !ok
        invariant Valid() && Stable0(g, lv, long, root) && retries + Spare(long) == 2 * |g|
        invariant ok ==> fresh(fcode) && Assembled(g, lv, long, offset, fcode[..], root)
        decreases !ok, Spare(long)
      {
        ghost var before := long;
        ok := Attempt(root, lv);
        if !ok {
          SpareDrops(g, before, long);
          retries := retries + 1;
        }
      }
      code := fcode;
      AssembledFacts(g, lv, long, offset, code[..], root);
    }
  }
}
