/** Graphs whose blocks set what they read: there a run is a walk, and value numbers tell its choices. */
module GeneratorForm {
  import opened Words
  import opened Bpf
  import opened Blocks
  import opened Reach
  import opened Dominators
  import opened InEdges
  import opened Liveness
  import opened Values
  import opened Rewrites
  import opened Treatments
  import opened ValueFlow
  import opened ValuePass
  import opened ValueSound
  import opened Walks
  import Backpatch
  import EdgeFold
  import Pullup

  predicate Sets(ss: seq<Stmt>, S: set<Atom>) { exists i :: 0 <= i < |ss| && !ss[i].Nop? && Def(ss[i]) in S }

  /** The atoms of kept[b] come to block b as the root leaves them. */
  predicate Carried(g: Graph, root: Id, reach: set<Id>, kept: seq<set<Atom>>) {
    && |kept| == |g|
    && forall b, side {:trigger g[b].Succ(side)} :: b in reach && b != root && b < |g| && g[b].s.Jmp? ==>
         var c := g[b].Succ(side); 0 <= c < |g| ==> kept[c] <= kept[b] && !Sets(g[b].stmts, kept[c])
  }

  /** Blocks read only what they set themselves, or what no block but the root sets on the way. */
  predicate Relies(g: Graph, root: Id, reach: set<Id>, kept: seq<set<Atom>>) {
    && root < |g| && Carried(g, root, reach, kept)
    && forall b {:trigger g[b]} :: b in reach && b != root ==> b < |g| && NodeReads(g[b]) <= kept[b]
  }

  /** The root, besides, reads nothing. */
  predicate Generated(g: Graph, root: Id, reach: set<Id>, kept: seq<set<Atom>>) {
    Relies(g, root, reach, kept) && NodeReads(g[root]) == {}
  }

  // No atom is carried to any block.
  function Nothing(g: Graph): (r: seq<set<Atom>>)
    ensures |r| == |g| && forall b :: 0 <= b < |g| ==> r[b] == {}
  {
    seq(|g|, _ => {})
  }

  lemma {:induction false} NothingCarried(g: Graph, root: Id, reach: set<Id>)
    ensures Carried(g, root, reach, Nothing(g))
  {
  }

  /** The graphs the code generator makes are in this form, with nothing carried from block to block. */
  lemma {:induction false} CompiledForm(g: Graph, root: Id, reach: set<Id>)
    requires Backpatch.OwnFrom(g, 0) && IsReach(g, root, reach)
    ensures Generated(g, root, reach, Nothing(g))
    ensures forall b :: b in reach ==> b < |g| && Sealed(g[b])
  {
    hide NodeReads;
    assert SelfContained(g[root]);
    forall b | b in reach ensures b < |g| && NodeReads(g[b]) == {} && Sealed(g[b]) {
      assert SelfContained(g[b]);
      OwnSealed(g[b]);
    }
    NothingCarried(g, root, reach);
  }

  lemma {:induction false} OwnSealed(n: Node)
    requires SelfContained(n)
    ensures Sealed(n)
  {
    if n.s.RetA? && !Touched(n.stmts) { UntouchedLive(n.stmts, {A_ATOM}); }
  }

  /** Statements that do not touch A leave it live if it was. */
  lemma {:induction false} UntouchedLive(ss: seq<Stmt>, out: set<Atom>)
    requires !Touched(ss) && A_ATOM in out
    ensures A_ATOM in LiveIn(ss, RetK(0), out)
  {
    if |ss| != 0 {
      assert !TouchesA(ss[0]);
      forall i | 0 <= i < |ss[1..]| ensures !TouchesA(ss[1..][i]) {
        assert ss[1..][i] == ss[i+1];
      }
      UntouchedLive(ss[1..], out);
    }
  }

  lemma {:induction false} KeepsUnset(ss: seq<Stmt>, S: set<Atom>, st: State, p: Packet)
    requires !Sets(ss, S) && Exec(ss, st, p).Some?
    ensures AgreeOn(S, st, Exec(ss, st, p).value)
  {
    hide Value, Def;
    if |ss| != 0 {
      assert ss[0].Nop? || Def(ss[0]) !in S;
      forall i | 0 <= i < |ss[1..]| ensures ss[1..][i].Nop? || Def(ss[1..][i]) !in S {
        assert ss[1..][i] == ss[i+1];
      }
      KeepsUnset(ss[1..], S, Step(ss[0], st, p).value, p);
    }
  }

  lemma {:induction false} SymKeepsUnset(ss: seq<Stmt>, S: set<Atom>, sym: Sym, a: Atom)
    requires !Sets(ss, S) && a in S
    ensures SymExec(ss, sym)[a] == sym[a]
  {
    hide SymValue, Def;
    if |ss| != 0 {
      assert ss[0].Nop? || Def(ss[0]) !in S;
      forall i | 0 <= i < |ss[1..]| ensures ss[1..][i].Nop? || Def(ss[1..][i]) !in S {
        assert ss[1..][i] == ss[i+1];
      }
      SymKeepsUnset(ss[1..], S, SymStep(ss[0], sym), a);
    }
  }

  predicate SymAgree(S: set<Atom>, x: Sym, y: Sym) {
    forall a {:trigger a in S} {:trigger x[a]} {:trigger y[a]} :: a in S ==> x[a] == y[a]
  }

  lemma {:induction false} SymValueAgrees(s: Stmt, x: Sym, y: Sym)
    requires !s.Nop? && SymAgree(Uses(s), x, y)
    ensures SymValue(s, x) == SymValue(s, y)
  {
    match s
    case Alu(_, _) => assert A_ATOM in Uses(s);
    case LdInd(_, _) => assert X_ATOM in Uses(s);
    case LdMem(r) => assert r in Uses(s);
    case LdxMem(r) => assert r in Uses(s);
    case St(_) => assert A_ATOM in Uses(s);
    case Stx(_) => assert X_ATOM in Uses(s);
    case Neg => assert A_ATOM in Uses(s);
    case Tax => assert A_ATOM in Uses(s);
    case Txa => assert X_ATOM in Uses(s);
    case _ =>
  }

  /** Symbolic execution only depends on what is read. */
  lemma {:induction false} SymExecAgrees(ss: seq<Stmt>, out: set<Atom>, x: Sym, y: Sym)
    requires SymAgree(LiveIn(ss, RetK(0), out), x, y)
    ensures SymAgree(out, SymExec(ss, x), SymExec(ss, y))
  {
    hide Uses, SymValue, Def;
    if |ss| != 0 {
      if !ss[0].Nop? { SymValueAgrees(ss[0], x, y); }
      SymExecAgrees(ss[1..], out, SymStep(ss[0], x), SymStep(ss[0], y));
    }
  }

  /** If what is read is known, so is what is computed. */
  lemma {:induction false} SymExecFirm(ss: seq<Stmt>, out: set<Atom>, x: Sym)
    requires Firm(x, LiveIn(ss, RetK(0), out))
    ensures Firm(SymExec(ss, x), out)
  {
    hide Uses, SymValue, Def, Solid;
    if |ss| != 0 {
      if !ss[0].Nop? {
        FirmSubset(x, LiveIn(ss, RetK(0), out), Uses(ss[0]));
        SymSolid(ss[0], x);
      }
      SymExecFirm(ss[1..], out, SymStep(ss[0], x));
    }
  }

  /** A block's choice only depends on what it reads. */
  lemma {:induction false} ChoiceAgrees(n: Node, x: State, y: State, p: Packet)
    requires AgreeOn(NodeReads(n), x, y)
    ensures ChoiceIn(n, x, p) == ChoiceIn(n, y, p)
  {
    hide LiveIn, Exec;
    ExecAgrees(n.stmts, RetK(0), BranchUses(n.s), x, y, p);
    if Exec(n.stmts, x, p).Some? {
      var m, k := Exec(n.stmts, x, p).value, Exec(n.stmts, y, p).value;
      if n.s.RetA? { assert A_ATOM in BranchUses(n.s); }
      if n.s.Jmp? {
        assert A_ATOM in BranchUses(n.s);
        assert n.s.src.X? ==> X_ATOM in BranchUses(n.s);
      }
    }
  }

  // The state the root leaves, or the initial state if it faults.
  function AfterRoot(g: Graph, root: Id, st: State, p: Packet): State
    requires root < |g|
  {
    match Exec(g[root].stmts, st, p) case None => st case Some(m) => m
  }

  /** The choices of all blocks in the run that starts at the root in state st. */
  function RunChoices(g: Graph, root: Id, st: State, p: Packet): (r: seq<Choice>)
    requires root < |g|
    ensures |r| == |g|
    ensures forall b {:trigger r[b]} :: 0 <= b < |g| ==> r[b] == ChoiceIn(g[b], if b == root then st else AfterRoot(g, root, st, p), p)
  {
    seq(|g|, b requires 0 <= b < |g| => ChoiceIn(g[b], if b == root then st else AfterRoot(g, root, st, p), p))
  }

  lemma {:induction false} SameChoice(g: Graph, g2: Graph, b: Id, st: State, p: Packet)
    requires SameBlocks(g, g2) && b < |g|
    ensures ChoiceIn(g2[b], st, p) == ChoiceIn(g[b], st, p) && g2[b].s == g[b].s && g2[b].stmts == g[b].stmts
  {
    hide Exec;
  }

  /** Below the root, a run is the walk along those choices. */
  lemma {:induction false} RunIsWalk(g: Graph, g2: Graph, root: Id, S: set<Id>, kept: seq<set<Atom>>, level: seq<nat>,
                                     init: State, b: Id, st: State, p: Packet, fuel: nat)
    requires Relies(g, root, S, kept) && SameBlocks(g, g2) && Closed(g2) && Descends(g2, S, level) && Carried(g2, root, S, kept)
    requires root in S && b in S && level[b] < level[root] && level[b] < fuel
    requires AgreeOn(kept[b], AfterRoot(g, root, init, p), st)
    ensures Run(g2, b, st, p, fuel) == Walk(g2, S, level, RunChoices(g, root, init, p), b)
    decreases fuel
  {
    hide NodeReads, Exec, AfterRoot, RunChoices, Sets;
    var sigma := AfterRoot(g, root, init, p);
    SameChoice(g, g2, b, st, p);
    assert AgreeOn(NodeReads(g[b]), sigma, st);
    ChoiceAgrees(g[b], sigma, st, p);
    var l := Land(g2[b], st, p);
    if l.Next? {
      Down(g2, S, level, b, l.side);
      KeepsUnset(g[b].stmts, kept[g2[b].Succ(l.side)], st, p);
      RunIsWalk(g, g2, root, S, kept, level, init, g2[b].Succ(l.side), l.st, p, fuel - 1);
    }
  }

  /** A whole run is a walk from the root. */
  lemma {:induction false} WholeRun(g: Graph, g2: Graph, root: Id, S: set<Id>, kept: seq<set<Atom>>, level: seq<nat>,
                                    init: State, p: Packet, fuel: nat)
    requires Relies(g, root, S, kept) && SameBlocks(g, g2) && Closed(g2) && Descends(g2, S, level) && Carried(g2, root, S, kept)
    requires root in S && level[root] < fuel
    ensures Run(g2, root, init, p, fuel) == Walk(g2, S, level, RunChoices(g, root, init, p), root)
  {
    hide NodeReads, Exec;
    SameChoice(g, g2, root, init, p);
    var l := Land(g2[root], init, p);
    if l.Next? {
      Down(g2, S, level, root, l.side);
      RunIsWalk(g, g2, root, S, kept, level, init, g2[root].Succ(l.side), l.st, p, fuel - 1);
    }
  }

  /** The root's own words have, on entry to every block, numbers that hold after the root. */
  lemma {:induction false} KeptEntry(g: Graph, lv: Blocks.Levels, s: Snapshot, inEdges: seq<seq<EdgeId>>, root: Id, reach: set<Id>, kept: seq<set<Atom>>,
                                     init: State, p: Packet, b: Id, a: Atom)
    requires Finished(g, s, inEdges, false, root, reach) && Leveled(g, lv) && Generated(g, root, reach, kept)
    requires Exec(g[root].stmts, init, p).Some? && b in reach && b != root && b < |kept| && a in kept[b]
    ensures b < |g| && Shaped(g, s, inEdges)
    ensures EntryVals(g, s, inEdges, b)[a] < |s.den|
    ensures TermHolds(s.den[EntryVals(g, s, inEdges, b)[a]], AfterRoot(g, root, init, p)[a], p)
    decreases if lv[b] <= lv[root] then lv[root] - lv[b] else 0
  {
    hide TermHolds, NodeReads, Carries, Exec, AfterRoot, SymExec, SymStep, Sets;
    TreatedBlock(g, s, inEdges, false, root, reach, b);
    var entry := EntryVals(g, s, inEdges, b);
    var nums := PredNumbers(g, inEdges[b], s.val, a);
    var v := AfterRoot(g, root, init, p)[a];
    UnknownHolds(v, p);
    if entry[a] != 0 {
      var e := inEdges[b][0];
      var m := Tail(g, e);
      PredFacts(g, lv, s, inEdges, root, reach, b);
      assert nums[0] == s.val[m][a];
      TreatedBlock(g, s, inEdges, false, root, reach, m);
      if m == root {
        RootExit(g, lv, s, inEdges, root, reach, init, p, a);
      } else {
        RootOnTop(g, lv, root, reach, m);
        CarriedBy(g, root, reach, kept, e);
        KeptEntry(g, lv, s, inEdges, root, reach, kept, init, p, m, a);
        SymKeepsUnset(g[m].stmts, kept[b], SymOf(s.den, EntryVals(g, s, inEdges, m)), a);
      }
    }
  }

  lemma {:induction false} CarriedBy(g: Graph, root: Id, reach: set<Id>, kept: seq<set<Atom>>, e: EdgeId)
    requires Carried(g, root, reach, kept) && Closed(g) && e < 2 * |g| && Tail(g, e) in reach && Tail(g, e) != root && 0 <= Head(g, e) < |g|
    ensures kept[Head(g, e)] <= kept[Tail(g, e)] && !Sets(g[Tail(g, e)].stmts, kept[Head(g, e)])
  {
    assert Head(g, e) == g[Tail(g, e)].Succ(e < |g|);
  }

  lemma {:induction false} PredFacts(g: Graph, lv: Blocks.Levels, s: Snapshot, inEdges: seq<seq<EdgeId>>, root: Id, reach: set<Id>, b: Id)
    requires Finished(g, s, inEdges, false, root, reach) && Leveled(g, lv) && b in reach && b < |g| && |inEdges[b]| > 0
    ensures inEdges[b][0] < 2 * |g| && Tail(g, inEdges[b][0]) in reach && lv[b] < lv[Tail(g, inEdges[b][0])] && Head(g, inEdges[b][0]) == b
  {
    assert EntersAt(g, reach, inEdges, b, inEdges[b][0]);
  }

  lemma {:induction false} RootExit(g: Graph, lv: Blocks.Levels, s: Snapshot, inEdges: seq<seq<EdgeId>>, root: Id, reach: set<Id>,
                                    init: State, p: Packet, a: Atom)
    requires Finished(g, s, inEdges, false, root, reach) && Leveled(g, lv) && Exec(g[root].stmts, init, p).Some?
    ensures s.val[root][a] < |s.den| && TermHolds(s.den[s.val[root][a]], AfterRoot(g, root, init, p)[a], p)
  {
    hide TermHolds, Exec, Progress, Entering;
    ValuesSound(g, lv, s, inEdges, root, reach, init, p, 0);
  }

  // The entry numbers of a block, blanked but for the atoms it may rely on.
  function Masked(sym: Sym, kept: set<Atom>): (r: Sym)
    ensures forall a: Atom {:trigger r[a]} :: r[a] == if a in kept then sym[a] else Unknown
  {
    seq(N_ATOMS, (a: nat) requires a < N_ATOMS => if a in kept then sym[a] else Unknown)
  }

  /** The atoms block b reads have numbers on entry. */
  predicate NodeKnown(g: Graph, s: Snapshot, inEdges: seq<seq<EdgeId>>, b: Id)
    requires Shaped(g, s, inEdges) && b < |g|
  {
    var entry := EntryVals(g, s, inEdges, b);
    forall a :: a in NodeReads(g[b]) ==> entry[a] != 0
  }

  /** The atoms a branch compares hold, at the end of the block, what their numbers stand for. */
  lemma {:induction false} UsedHold(n: Node, entry: Sym, kept: set<Atom>, st: State, p: Packet, a: Atom)
    requires NodeReads(n) <= kept && Holds(Masked(entry, kept), st, p) && Firm(entry, NodeReads(n))
    requires Exec(n.stmts, st, p).Some? && a in BranchUses(n.s)
    ensures Eval(SymExec(n.stmts, entry)[a], p) == Some(Exec(n.stmts, st, p).value[a])
  {
    hide Exec, SymExec, Eval, Solid, LiveIn, BranchUses, Masked;
    var e := Masked(entry, kept);
    MaskedAgrees(entry, kept, NodeReads(n));
    SymExecSound(n.stmts, e, st, p);
    SymExecAgrees(n.stmts, BranchUses(n.s), entry, e);
    SymExecFirm(n.stmts, BranchUses(n.s), e);
    HoldsAt(SymExec(n.stmts, e), Exec(n.stmts, st, p).value, p, a);
  }

  lemma {:induction false} MaskedAgrees(entry: Sym, kept: set<Atom>, S: set<Atom>)
    requires S <= kept && Firm(entry, S)
    ensures SymAgree(S, entry, Masked(entry, kept)) && Firm(Masked(entry, kept), S)
  {
    hide Solid;
  }

  /** Before block b, what it may rely on holds. */
  lemma {:induction false} MaskedHolds(g: Graph, lv: Blocks.Levels, s: Snapshot, inEdges: seq<seq<EdgeId>>, root: Id, reach: set<Id>, kept: seq<set<Atom>>,
                                       init: State, p: Packet, b: Id)
    requires Finished(g, s, inEdges, false, root, reach) && Leveled(g, lv) && Generated(g, root, reach, kept)
    requires Exec(g[root].stmts, init, p).Some? && b in reach && b < |kept|
    ensures b < |g| && Shaped(g, s, inEdges) && Issued(EntryVals(g, s, inEdges, b), |s.den|)
    ensures Holds(Masked(SymOf(s.den, EntryVals(g, s, inEdges, b)), if b == root then {} else kept[b]),
                  if b == root then init else AfterRoot(g, root, init, p), p)
  {
    hide TermHolds, Exec, Progress, Generated, AfterRoot, Entering;
    TreatedBlock(g, s, inEdges, false, root, reach, b);
    EntryOk(g, s, inEdges, b);
    var entry := EntryVals(g, s, inEdges, b);
    var rely := if b == root then {} else kept[b];
    var st := if b == root then init else AfterRoot(g, root, init, p);
    forall a: Atom ensures TermHolds(Masked(SymOf(s.den, entry), rely)[a], st[a], p) {
      UnknownHolds(st[a], p);
      if a in rely { KeptEntry(g, lv, s, inEdges, root, reach, kept, init, p, b, a); }
    }
  }

  lemma {:induction false} EntryOk(g: Graph, s: Snapshot, inEdges: seq<seq<EdgeId>>, b: Id)
    requires Shaped(g, s, inEdges) && b < |g| && DoneAt(g, s, inEdges, false, b)
    ensures Issued(EntryVals(g, s, inEdges, b), |s.den|) && Issued(s.val[b], |s.den|) && s.oval[b] < |s.den|
    ensures SymOf(s.den, s.val[b]) == SymExec(g[b].stmts, SymOf(s.den, EntryVals(g, s, inEdges, b)))
    ensures OperandNumber(g[b].s, s.oval[b], s.val[b], s.den)
  {
  }

  /** The choices of a run are the comparisons of what the numbers stand for. */
  lemma {:induction false} ChoicesSound(g: Graph, lv: Blocks.Levels, s: Snapshot, inEdges: seq<seq<EdgeId>>, root: Id, reach: set<Id>, kept: seq<set<Atom>>,
                                        init: State, p: Packet, b: Id)
    requires Finished(g, s, inEdges, false, root, reach) && Leveled(g, lv) && Generated(g, root, reach, kept)
    requires Exec(g[root].stmts, init, p).Some? && b in reach && b < |g| == |kept| && Shaped(g, s, inEdges) && Whole(s.den) && NodeKnown(g, s, inEdges, b)
    ensures EdgeFold.ChoiceAt(g, EdgeFold.Numbers(s.val, s.oval, s.den), RunChoices(g, root, init, p), p, b)
  {
    hide Exec, Progress, Entering, SymExec, Eval, IsReach, Holds, Masked, DoneAt, NodeReads, Solid, AfterRoot, RunChoices, EntryVals;
    var entry := EntryVals(g, s, inEdges, b);
    var st := if b == root then init else AfterRoot(g, root, init, p);
    MaskedHolds(g, lv, s, inEdges, root, reach, kept, init, p, b);
    TreatedBlock(g, s, inEdges, false, root, reach, b);
    EntryOk(g, s, inEdges, b);
    if g[b].s.Jmp? && Exec(g[b].stmts, st, p).Some? {
      NodeFirm(g, s, inEdges, b);
      assert A_ATOM in BranchUses(g[b].s);
      UsedHold(g[b], SymOf(s.den, entry), if b == root then {} else kept[b], st, p, A_ATOM);
      if g[b].s.src.X? {
        UsedHold(g[b], SymOf(s.den, entry), if b == root then {} else kept[b], st, p, X_ATOM);
      }
      assert SymOf(s.den, s.val[b])[A_ATOM] == s.den[s.val[b][A_ATOM]] && SymOf(s.den, s.val[b])[X_ATOM] == s.den[s.val[b][X_ATOM]];
      UnknownEval(p);
      ConstEval(p);
      ZeroUnknown(g, s, inEdges, root, reach);
      var m := Exec(g[b].stmts, st, p).value;
      assert RunChoices(g, root, init, p)[b] == Go(Taken(g[b].s, m));
    }
  }

  lemma {:induction false} UnknownEval(p: Packet)
    ensures Eval(Unknown, p) == None
  {
  }

  lemma {:induction false} ZeroUnknown(g: Graph, s: Snapshot, inEdges: seq<seq<EdgeId>>, root: Id, reach: set<Id>)
    requires Finished(g, s, inEdges, false, root, reach)
    ensures |s.den| > 0 && s.den[0] == Unknown
  {
    hide DoneAt;
  }

  lemma {:induction false} ConstEval(p: Packet)
    ensures forall k: Word {:trigger Const(k)} :: Eval(Const(k), p) == Some(k)
  {
  }

  lemma {:induction false} NodeFirm(g: Graph, s: Snapshot, inEdges: seq<seq<EdgeId>>, b: Id)
    requires Shaped(g, s, inEdges) && b < |g| && Issued(EntryVals(g, s, inEdges, b), |s.den|) && Whole(s.den) && NodeKnown(g, s, inEdges, b)
    ensures Firm(SymOf(s.den, EntryVals(g, s, inEdges, b)), NodeReads(g[b]))
  {
    hide NodeReads, Solid;
    var entry := EntryVals(g, s, inEdges, b);
    assert forall a: Atom {:trigger entry[a]} :: SymOf(s.den, entry)[a] == s.den[entry[a]];
  }

  /** No block reads an atom without a number. */
  predicate AllKnown(g: Graph, s: Snapshot, inEdges: seq<seq<EdgeId>>, reach: set<Id>) {
    Shaped(g, s, inEdges) && forall b {:trigger NodeKnown(g, s, inEdges, b)} :: b in reach ==> b < |g| && NodeKnown(g, s, inEdges, b)
  }

  lemma {:induction false} AllKnownWhole(g: Graph, s: Snapshot, inEdges: seq<seq<EdgeId>>, root: Id, reach: set<Id>)
    requires Finished(g, s, inEdges, false, root, reach) && AllKnown(g, s, inEdges, reach)
    ensures Whole(s.den)
  {
    hide DoneAt, LiveIn;
    forall b | b in reach ensures ReadsKnown(g, s, inEdges, b) {
      assert NodeKnown(g, s, inEdges, b);
      ExposedReads(g[b]);
    }
  }

  lemma {:induction false} ExposedReads(n: Node)
    ensures Exposed(n.stmts) <= NodeReads(n)
  {
    LiveMore(n.stmts, {}, BranchUses(n.s));
  }

  lemma {:induction false} AllChoices(g: Graph, lv: Blocks.Levels, s: Snapshot, inEdges: seq<seq<EdgeId>>, root: Id, reach: set<Id>, kept: seq<set<Atom>>,
                                      init: State, p: Packet)
    requires Finished(g, s, inEdges, false, root, reach) && Leveled(g, lv) && Generated(g, root, reach, kept)
    requires Exec(g[root].stmts, init, p).Some? && AllKnown(g, s, inEdges, reach)
    ensures EdgeFold.Choices(g, EdgeFold.Numbers(s.val, s.oval, s.den), reach, RunChoices(g, root, init, p), p)
  {
    hide DoneAt, NodeKnown, EdgeFold.ChoiceAt, Exec, RunChoices, Generated, Entering;
    AllKnownWhole(g, s, inEdges, root, reach);
    GeneratedRoot(g, root, reach, kept);
    forall b | b in reach ensures b < |g| && EdgeFold.ChoiceAt(g, EdgeFold.Numbers(s.val, s.oval, s.den), RunChoices(g, root, init, p), p, b) {
      assert NodeKnown(g, s, inEdges, b);
      ChoicesSound(g, lv, s, inEdges, root, reach, kept, init, p, b);
    }
  }

  /** From block h on, folding leads to blocks that are carried no more than h is. */
  lemma {:induction false} FoldCarries(g: Graph, g2: Graph, fx: EdgeFold.Facts, root: Id, reach: set<Id>, kept: seq<set<Atom>>, e: EdgeId, h: Id)
    requires EdgeFold.Fits(g2, fx) && SameBlocks(g, g2) && Descends(g, reach, fx.level) && Descends(g2, reach, fx.level) && Carried(g, root, reach, kept)
    requires root in reach && EdgeFold.AllPromoted(g, g2, fx, reach) && e < 2 * |g|
    requires h in reach && h < |g| && fx.level[h] < fx.level[root] && forall b :: b in reach ==> fx.level[b] <= fx.level[root]
    ensures var t := EdgeFold.FoldedTo(g2, fx, e, h); t in reach && fx.level[t] <= fx.level[h] && kept[t] <= kept[h]
    decreases fx.level[h], 1
  {
    hide EdgeFold.FoldEdge, EdgeFold.AllPromoted, EdgeFold.NextFold, Sets;
    var t := EdgeFold.NextFold(g2, fx, e, h, 0);
    EdgeFold.NextFoldFacts(g2, fx, e, h, 0);
    if t != NIL {
      var f :| 0 <= f < 2 * |g| && EdgeFold.FoldEdge(g2, fx.nm, h, f) == t;
      EdgeFold.FoldDown(g2, fx.nm, reach, fx.level, h, f);
      NewEdgeCarries(g, g2, fx, root, reach, kept, h, t == g2[h].jt);
      FoldCarries(g, g2, fx, root, reach, kept, e, t);
    }
  }

  /** The edges of the promoted graph lead to blocks that are carried no more than those they led to, and not to the root. */
  lemma {:induction false} NewEdgeCarries(g: Graph, g2: Graph, fx: EdgeFold.Facts, root: Id, reach: set<Id>, kept: seq<set<Atom>>, b: Id, side: bool)
    requires EdgeFold.Fits(g2, fx) && SameBlocks(g, g2) && Descends(g, reach, fx.level) && Descends(g2, reach, fx.level) && Carried(g, root, reach, kept)
    requires root in reach && EdgeFold.AllPromoted(g, g2, fx, reach)
    requires b in reach && b < |g| && g[b].s.Jmp? && b != root && forall b :: b in reach ==> fx.level[b] <= fx.level[root]
    ensures var c, c2 := g[b].Succ(side), g2[b].Succ(side); 0 <= c < |g| && 0 <= c2 < |g| && kept[c2] <= kept[c] && kept[c2] <= kept[b]
    decreases fx.level[b], 0
  {
    hide EdgeFold.FoldEdge, EdgeFold.FoldedTo, EdgeFold.Conflict, Sets;
    var e := EdgeOf(g, b, side);
    assert EdgeFold.Promoted(g, g2, fx, e);
    Down(g, reach, fx.level, b, side);
    Down(g2, reach, fx.level, b, side);
    var c := g[b].Succ(side);
    var h := EdgeFold.Skipped(g2, fx, e, c);
    if h != c {
      Down(g2, reach, fx.level, c, true);
      NewEdgeCarries(g, g2, fx, root, reach, kept, c, true);
    }
    FoldCarries(g, g2, fx, root, reach, kept, e, h);
  }

  /** So what is carried is carried in the promoted graph too. */
  lemma {:induction false} PromotedCarries(g: Graph, g2: Graph, fx: EdgeFold.Facts, root: Id, reach: set<Id>, kept: seq<set<Atom>>)
    requires EdgeFold.Fits(g2, fx) && SameBlocks(g, g2) && Descends(g, reach, fx.level) && Descends(g2, reach, fx.level) && Carried(g, root, reach, kept)
    requires root in reach && EdgeFold.AllPromoted(g, g2, fx, reach) && forall b :: b in reach ==> fx.level[b] <= fx.level[root]
    ensures Carried(g2, root, reach, kept)
  {
    hide EdgeFold.AllPromoted, Sets;
    forall b, side | b in reach && b != root && b < |g2| && g2[b].s.Jmp? && 0 <= g2[b].Succ(side) < |g|
      ensures kept[g2[b].Succ(side)] <= kept[b] && !Sets(g2[b].stmts, kept[g2[b].Succ(side)])
    {
      NewEdgeCarries(g, g2, fx, root, reach, kept, b, side);
      SetsLess(g[b].stmts, kept[g[b].Succ(side)], kept[g2[b].Succ(side)]);
    }
  }

  lemma {:induction false} SetsLess(ss: seq<Stmt>, S: set<Atom>, T: set<Atom>)
    requires !Sets(ss, S) && T <= S
    ensures !Sets(ss, T)
  {
    hide Def;
  }

  /** Edge folding keeps the result of every run that does not fault, on a graph in generator
      form numbered without gaps. */
  lemma {:induction false} FoldedRun(g: Graph, g2: Graph, lv: Blocks.Levels, s: Snapshot, inEdges: seq<seq<EdgeId>>, root: Id, reach: set<Id>,
                                     kept: seq<set<Atom>>, level: seq<nat>, init: State, p: Packet, fuel: nat)
    requires Finished(g, s, inEdges, false, root, reach) && Leveled(g, lv) && Generated(g, root, reach, kept) && AllKnown(g, s, inEdges, reach)
    requires EdgeFold.Kept(g, g2, EdgeFold.Numbers(s.val, s.oval, s.den), reach, level, root) && level[root] < fuel
    requires Carried(g2, root, reach, kept)
    ensures Closed(g2)
    ensures Run(g, root, init, p, fuel) == Fault || Run(g2, root, init, p, fuel) == Run(g, root, init, p, fuel)
  {
    hide Exec, RunChoices, Generated, Relies, Carried, Entering, Progress, AllKnown, Descends, NodeReads;
    var nm := EdgeFold.Numbers(s.val, s.oval, s.den);
    var ch := RunChoices(g, root, init, p);
    GeneratedRoot(g, root, reach, kept);
    if Exec(g[root].stmts, init, p).Some? {
      SameAsSelf(g);
      WholeRun(g, g, root, reach, kept, level, init, p, fuel);
      WholeRun(g, g2, root, reach, kept, level, init, p, fuel);
      AllChoices(g, lv, s, inEdges, root, reach, kept, init, p);
      assert EdgeFold.KeptAt(g, g2, nm, reach, level, root, ch, p);
    }
  }

  lemma {:induction false} RunChooses(g: Graph, root: Id, S: set<Id>, init: State, p: Packet)
    requires root < |g|
    ensures Pullup.Chooses(g, S, RunChoices(g, root, init, p))
  {
    hide Exec;
  }

  /** A pull keeps the result of every run that does not fault, on a graph in generator form,
      if the pulled block does not fault where it is moved to. */
  lemma {:induction false} PulledRun(g: Graph, g2: Graph, root: Id, S: set<Id>, kept: seq<set<Atom>>, level: seq<nat>, level2: seq<nat>, pull: Id,
                                     init: State, p: Packet, fuel: nat)
    requires Closed(g) && Generated(g, root, S, kept) && Carried(g2, root, S, kept) && Pullup.PullSafe(g, g2, S, level, level2, root, pull)
    requires pull < |g| && ChoiceIn(g[pull], AfterRoot(g, root, init, p), p) != End(Fault)
    requires level[root] < fuel && level2[root] < fuel
    ensures Run(g, root, init, p, fuel) == Fault || Run(g2, root, init, p, fuel) == Run(g, root, init, p, fuel)
  {
    hide RunChoices, Generated, ChoiceIn, AfterRoot, Pullup.Chooses;
    SameAsSelf(g);
    GeneratedRoot(g, root, S, kept);
    WholeRun(g, g, root, S, kept, level, init, p, fuel);
    WholeRun(g, g2, root, S, kept, level2, init, p, fuel);
    RunChooses(g, root, S, init, p);
    assert Pullup.PulledKeeps(g, g2, S, level, level2, root, pull, RunChoices(g, root, init, p));
  }

  lemma {:induction false} GeneratedRoot(g: Graph, root: Id, S: set<Id>, kept: seq<set<Atom>>)
    requires Generated(g, root, S, kept)
    ensures Relies(g, root, S, kept) && root < |g| == |kept| && Carried(g, root, S, kept)
  {
  }
}
