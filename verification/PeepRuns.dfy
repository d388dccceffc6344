/** The peephole rules over whole runs: every block rewritten, with what numbering knows of A and X. */
module PeepRuns {
  import opened Words
  import opened Bpf
  import opened Blocks
  import opened Reach
  import opened Dominators
  import opened Levels
  import opened InEdges
  import opened Liveness
  import opened Values
  import opened Treatments
  import opened ValueFlow
  import opened ValuePass
  import opened ValueSound
  import opened Peephole

  // The constants known of X and A at the end of block b.
  function XConst(s: Snapshot, b: Id): Option<Word>
    requires b < |s.val|
  {
    ConstAt(s.keys, s.val[b][X_ATOM])
  }

  function AConst(s: Snapshot, b: Id): Option<Word>
    requires b < |s.val|
  {
    ConstAt(s.keys, s.val[b][A_ATOM])
  }

  /** The rule for indexed loads does not apply, or X is set again before it is read. */
  ghost predicate XSpared(n: Node, out: set<Atom>) { X_ATOM in out || XRedefined(n.stmts, n.s, out) }

  /** Block b after the peephole rules. */
  ghost predicate PeepedBlock(g: Graph, s: Snapshot, outUse: seq<set<Atom>>, g2: Graph, b: Id)
    requires b < |g| == |g2| == |outUse| && b < |s.val|
  {
    && (XSpared(g[b], outUse[b]) ==> Peeped(g[b], g2[b], outUse[b], XConst(s, b), AConst(s, b), AllBits(g[b], outUse[b])))
    && (|g[b].stmts| == 0 ==> g2[b] == g[b])
    && (g2[b].s.Jmp? <==> g[b].s.Jmp?) && {g2[b].jt, g2[b].jf} <= {g[b].jt, g[b].jf}
    && (!g[b].s.Jmp? ==> g2[b].s == g[b].s && (|g[b].stmts| == 0 || AConst(s, b).None?))
    && (|g[b].stmts| > 0 ==> |g2[b].stmts| == |g[b].stmts| && Squeezed(g2[b]) == PeepOf(g[b], outUse[b], XConst(s, b), AConst(s, b)))
  }

  /** The rules do not stop at a block that branches, has no statements, or does not set A to a constant. */
  predicate Passes(g: Graph, s: Snapshot, b: Id)
    requires b < |g| && b < |s.val|
  {
    g[b].s.Jmp? || |g[b].stmts| == 0 || AConst(s, b).None?
  }

  /** The block chosen next does not depend on the rule for a test of all bits. */
  predicate OnesHarmless(n: Node, out: set<Atom>) { n.s.Jmp? && AllBits(n, out) ==> n.jt == n.jf }

  /** When X is read at the end, states that agree before the block agree on X there as well. */
  lemma {:induction false} XAgrees(n: Node, out: set<Atom>, x: State, y: State, p: Packet)
    requires AgreeOn(LiveIn(n.stmts, n.s, out), x, y) && Exec(n.stmts, x, p).Some? && NeedsX(n)
    ensures Exec(n.stmts, y, p).Some? && Exec(n.stmts, x, p).value[X_ATOM] == Exec(n.stmts, y, p).value[X_ATOM]
  {
    hide Exec, LiveIn, CountedUses, EndsIn;
    if n.s.Jmp? && n.s.src.X? {
      ExecAgrees(n.stmts, n.s, out, x, y, p);
      JmpReads(n.s);
    } else {
      var op :| EndsIn(n.stmts, Alu(op, X));
      EndLive(n.stmts, n.s, out, op);
      ExecAgrees(n.stmts, n.s, out + {X_ATOM}, x, y, p);
    }
  }

  lemma {:induction false} JmpReads(br: Branch)
    requires br.Jmp?
    ensures A_ATOM in CountedUses(br) && (br.src.X? ==> X_ATOM in CountedUses(br))
  {
  }

  lemma {:induction false} EndLive(ss: seq<Stmt>, br: Branch, out: set<Atom>, op: AluOp)
    requires EndsIn(ss, Alu(op, X))
    ensures LiveIn(ss, br, out + {X_ATOM}) == LiveIn(ss, br, out)
  {
    hide CountedUses;
    if |Live(ss[1..])| > 0 {
      assert EndsIn(ss[1..], Alu(op, X));
      EndLive(ss[1..], br, out, op);
    } else {
      NoneLive(ss[1..]);
      NopsLive(ss[1..], br, out);
      NopsLive(ss[1..], br, out + {X_ATOM});
    }
  }

  lemma {:induction false} NopsLive(ss: seq<Stmt>, br: Branch, out: set<Atom>)
    requires NopsIn(ss, 0, |ss|)
    ensures LiveIn(ss, br, out) == out + CountedUses(br)
  {
    if |ss| > 0 {
      assert ss[0].Nop?;
      forall k | 0 <= k < |ss[1..]| ensures ss[1..][k].Nop? { assert ss[k+1].Nop?; }
      NopsLive(ss[1..], br, out);
    }
  }

  /** What the numbers say is constant holds at the end of the block. */
  lemma {:induction false} ConstsHold(s: Snapshot, b: Id, m: State, p: Packet)
    requires b < |s.val| && |s.keys| == |s.den| && Issued(s.val[b], |s.den|) && Holds(SymOf(s.den, s.val[b]), m, p)
    requires forall n :: 0 < n < |s.keys| && ConstAt(s.keys, n).Some? ==> s.den[n] == Const(ConstAt(s.keys, n).value)
    ensures XConst(s, b).Some? ==> m[X_ATOM] == XConst(s, b).value
    ensures AConst(s, b).Some? ==> m[A_ATOM] == AConst(s, b).value
  {
    HoldsConst(s, b, m, p, X_ATOM);
    HoldsConst(s, b, m, p, A_ATOM);
  }

  lemma {:induction false} HoldsConst(s: Snapshot, b: Id, m: State, p: Packet, a: Atom)
    requires b < |s.val| && |s.keys| == |s.den| && Issued(s.val[b], |s.den|) && Holds(SymOf(s.den, s.val[b]), m, p)
    requires forall n :: 0 < n < |s.keys| && ConstAt(s.keys, n).Some? ==> s.den[n] == Const(ConstAt(s.keys, n).value)
    ensures ConstAt(s.keys, s.val[b][a]).Some? ==> m[a] == ConstAt(s.keys, s.val[b][a]).value
  {
    assert TermHolds(SymOf(s.den, s.val[b])[a], m[a], p);
  }

  /** One block: from a state that agrees on what is live, the rewritten block ends alike and chooses the same successor. */
  lemma {:induction false} BlockPeeped(g: Graph, s: Snapshot, outUse: seq<set<Atom>>, g2: Graph, b: Id, x: State, y: State, p: Packet)
    requires b < |g| == |g2| == |outUse| && b < |s.val| && PeepedBlock(g, s, outUse, g2, b) && OnesHarmless(g[b], outUse[b]) && XSpared(g[b], outUse[b])
    requires AgreeOn(LiveIn(g[b].stmts, g[b].s, outUse[b]), x, y) && Exec(g[b].stmts, x, p).Some?
    requires var m := Exec(g[b].stmts, x, p).value;
      (XConst(s, b).Some? ==> m[X_ATOM] == XConst(s, b).value) && (AConst(s, b).Some? ==> m[A_ATOM] == AConst(s, b).value)
    ensures Exec(g2[b].stmts, y, p).Some? && (g2[b].s.Jmp? <==> g[b].s.Jmp?) && (!g[b].s.Jmp? ==> g2[b].s == g[b].s)
    ensures AgreeOn(outUse[b], Exec(g[b].stmts, x, p).value, Exec(g2[b].stmts, y, p).value)
    ensures g[b].s.Jmp? ==> Target(g2[b], Exec(g2[b].stmts, y, p).value) == Target(g[b], Exec(g[b].stmts, x, p).value)
  {
    hide Exec, LiveIn, AllBits, NeedsX, Taken, XSpared;
    var n, m := g[b], Exec(g[b].stmts, x, p).value;
    ExecAgrees(n.stmts, n.s, outUse[b], x, y, p);
    var k := Exec(n.stmts, y, p).value;
    if NeedsX(n) { XAgrees(n, outUse[b], x, y, p); }
    if |n.stmts| > 0 || n.s.Jmp? { assert PeepedAt(n, g2[b], outUse[b], XConst(s, b), AConst(s, b), AllBits(n, outUse[b]), y, p); }
    if n.s.Jmp? {
      JmpReads(n.s);
      SameSide(n.s, m, k);
    }
  }

  /** What the whole rewriting is: every block of reach after the rules, the others untouched. */
  ghost predicate AllPeeped(g: Graph, s: Snapshot, outUse: seq<set<Atom>>, reach: set<Id>, g2: Graph) {
    && |g| == |g2| == |outUse| == |s.val| && (forall b :: b in reach ==> b < |g|)
    && (forall b {:trigger g2[b]} :: 0 <= b < |g| && b !in reach ==> g2[b] == g[b])
    && forall b {:trigger PeepedBlock(g, s, outUse, g2, b)} :: b in reach ==> PeepedBlock(g, s, outUse, g2, b)
  }

  lemma {:induction false} PeepedClosed(g: Graph, lv: Blocks.Levels, s: Snapshot, outUse: seq<set<Atom>>, reach: set<Id>, g2: Graph)
    requires Leveled(g, lv) && AllPeeped(g, s, outUse, reach, g2)
    ensures Leveled(g2, lv)
  {
    hide Peeped, AllBits, XSpared;
    forall b | 0 <= b < |g|
      ensures if g2[b].s.Jmp? then 0 <= g2[b].jt < |g| && 0 <= g2[b].jf < |g| && lv[g2[b].jt] < lv[b] && lv[g2[b].jf] < lv[b]
              else g2[b].jt == NIL && g2[b].jf == NIL
    {
      if b in reach {
        assert PeepedBlock(g, s, outUse, g2, b);
        assert g2[b].jt in {g[b].jt, g[b].jf} && g2[b].jf in {g[b].jt, g[b].jf};
      }
    }
  }

  /** Constants of the table stand for themselves. */
  predicate ConstsMean(s: Snapshot) {
    |s.keys| == |s.den| && forall n :: 0 < n < |s.keys| && ConstAt(s.keys, n).Some? ==> s.den[n] == Const(ConstAt(s.keys, n).value)
  }

  /** The rewritten graph ends as the original does, wherever that does not fault. */
  lemma {:induction false} PeepedRun(g: Graph, lv: Blocks.Levels, s: Snapshot, inEdges: seq<seq<EdgeId>>, inUse: seq<set<Atom>>, outUse: seq<set<Atom>>,
                                     root: Id, reach: set<Id>, g2: Graph, b: Id, x: State, y: State, p: Packet, fuel: nat)
    requires Finished(g, s, inEdges, false, root, reach) && Leveled(g, lv) && ConstsMean(s) && b in reach && EntryHolds(g, s, inEdges, b, x, p)
    requires LiveSets(g, reach, inUse, outUse) && AllPeeped(g, s, outUse, reach, g2) && AgreeOn(inUse[b], x, y)
    requires forall c :: c in reach ==> c < |g| && XSpared(g[c], outUse[c]) && OnesHarmless(g[c], outUse[c]) && !g[c].s.RetA?
    ensures Closed(g2) && |g2| == |g|
    ensures Run(g, b, x, p, fuel) != Fault ==> Run(g2, b, y, p, fuel) == Run(g, b, x, p, fuel)
    decreases fuel
  {
    hide IsReach, Entering, Progress, Holds, Taken, Exec, EntryHolds, AgreeOn, CountedUses, LiveIn, AllBits, ConstsMean, PeepedBlock, OnesHarmless, XSpared;
    PeepedClosed(g, lv, s, outUse, reach, g2);
    TreatedBlock(g, s, inEdges, false, root, reach, b);
    assert LiveAt(g, inUse, outUse, b) && PeepedBlock(g, s, outUse, g2, b);
    if fuel > 0 && Exec(g[b].stmts, x, p).Some? {
      var x' := Exec(g[b].stmts, x, p).value;
      EndHolds(g, s, inEdges, b, x, p);
      ConstsHere(s, b, x', p);
      BlockPeeped(g, s, outUse, g2, b, x, y, p);
      if g[b].s.Jmp? {
        var y' := Exec(g2[b].stmts, y, p).value;
        var side := Taken(g[b].s, x');
        EdgeCarries(g, s, inEdges, false, root, reach, b, side, x', p);
        AgreeLess(inUse[g[b].Succ(side)], outUse[b], x', y');
        PeepedRun(g, lv, s, inEdges, inUse, outUse, root, reach, g2, g[b].Succ(side), x', y', p, fuel - 1);
      }
    }
  }

  lemma {:induction false} EndHolds(g: Graph, s: Snapshot, inEdges: seq<seq<EdgeId>>, b: Id, x: State, p: Packet)
    requires Shaped(g, s, inEdges) && b < |g| && DoneAt(g, s, inEdges, false, b) && EntryHolds(g, s, inEdges, b, x, p) && Exec(g[b].stmts, x, p).Some?
    ensures Issued(s.val[b], |s.den|) && Holds(SymOf(s.den, s.val[b]), Exec(g[b].stmts, x, p).value, p)
  {
    hide Exec, SymExec, Holds, ExactlyAll, Carries;
    SymExecSound(g[b].stmts, SymOf(s.den, EntryVals(g, s, inEdges, b)), x, p);
  }

  lemma {:induction false} ConstsHere(s: Snapshot, b: Id, m: State, p: Packet)
    requires ConstsMean(s) && b < |s.val| && Issued(s.val[b], |s.den|) && Holds(SymOf(s.den, s.val[b]), m, p)
    ensures XConst(s, b).Some? ==> m[X_ATOM] == XConst(s, b).value
    ensures AConst(s, b).Some? ==> m[A_ATOM] == AConst(s, b).value
  {
    ConstsHold(s, b, m, p);
  }

  /** The peephole rules keep the result of every run that does not fault, unless a block comes to test all bits. */
  lemma {:induction false} PeepsSafe(g: Graph, lv: Blocks.Levels, s: Snapshot, inEdges: seq<seq<EdgeId>>, inUse: seq<set<Atom>>, outUse: seq<set<Atom>>,
                                     root: Id, reach: set<Id>, g2: Graph, st: State, p: Packet, fuel: nat)
    requires Finished(g, s, inEdges, false, root, reach) && Leveled(g, lv) && ConstsMean(s)
    requires LiveSets(g, reach, inUse, outUse) && AllPeeped(g, s, outUse, reach, g2)
    requires forall c :: c in reach ==> c < |g| && XSpared(g[c], outUse[c]) && OnesHarmless(g[c], outUse[c]) && !g[c].s.RetA?
    ensures Closed(g2) && |g2| == |g|
    ensures Run(g, root, st, p, fuel) != Fault ==> Run(g2, root, st, p, fuel) == Run(g, root, st, p, fuel)
  {
    hide Progress, Entering, EntryHolds, LiveSets, AllPeeped, ConstsMean, OnesHarmless, XSpared, Run;
    RootHolds(g, lv, s, inEdges, false, root, reach, st, p);
    PeepedRun(g, lv, s, inEdges, inUse, outUse, root, reach, g2, root, st, st, p, fuel);
  }

  lemma {:induction false} PeepedNone(g: Graph, s: Snapshot, outUse: seq<set<Atom>>)
    requires |g| == |outUse| == |s.val|
    ensures AllPeeped(g, s, outUse, {}, g)
  {
  }

  lemma {:induction false} PeepedNext(g: Graph, s: Snapshot, outUse: seq<set<Atom>>, done: set<Id>, g2: Graph, b: Id, n2: Node)
    requires AllPeeped(g, s, outUse, done, g2) && b < |g| && PeepedBlock(g, s, outUse, g2[b := n2], b)
    ensures |g2| == |g| && AllPeeped(g, s, outUse, done + {b}, g2[b := n2])
  {
    hide Peeped, AllBits, XSpared, PeepOf, Squeezed;
    var g3 := g2[b := n2];
    forall c | c in done + {b} ensures PeepedBlock(g, s, outUse, g3, c) {
      if c != b { assert PeepedBlock(g, s, outUse, g2, c); }
    }
  }

  /** After a load the rule applies to, X is set before it is read, in every block. */
  ghost predicate XSettled(g: Graph) {
    forall b, out {:trigger XRedefined(g[b].stmts, g[b].s, out)} :: 0 <= b < |g| && X_ATOM !in out ==> XRedefined(g[b].stmts, g[b].s, out)
  }

  /** In code whose constants are stored at once the rule for indexed loads never applies. */
  lemma {:induction false} TameSettled(g: Graph, divides: bool)
    requires forall b {:trigger g[b]} :: 0 <= b < |g| ==> Tame(g[b].stmts, divides)
    ensures XSettled(g)
  {
    hide LiveIn;
    forall b, out | 0 <= b < |g| && X_ATOM !in out ensures XRedefined(g[b].stmts, g[b].s, out) {
      forall j | 0 <= j < |g[b].stmts| ensures !Folds(g[b].stmts, j) {
        TameUnfolded(g[b].stmts, divides, j);
      }
    }
  }

  lemma {:induction false} TameUnfolded(ss: seq<Stmt>, divides: bool, j: nat)
    requires Tame(ss, divides)
    ensures !Folds(ss, j)
  {
    forall i: nat, msh: nat, add: nat, tax: nat ensures !IndexPattern(ss, i, msh, add, tax, j) {
      assert i < |ss| && ss[i].LdImm? ==> i + 1 < |ss| && ss[i+1].St?;
    }
  }

  /** Rewrite every reachable block of a numbered graph, or abort on a block that returns after setting A to a constant. */
  method PeepBlks(g: Graph, pass: Pass, root: Id, level: seq<nat>, levels: seq<seq<Id>>, inEdges: seq<seq<EdgeId>>, outUse: seq<set<Atom>>,
                  ghost reach: set<Id>) returns (ok: bool, g2: Graph)
    requires IsReach(g, root, reach) && Leveling(g, reach, level, levels)
    requires pass.table.Valid() && Progress(g, pass.Snap(), inEdges, false, reach) && |outUse| == |g| == |pass.val|
    ensures ok ==> AllPeeped(g, pass.Snap(), outUse, reach, g2)
    ensures PlainReturns(g) ==> ok
    ensures !ok ==> exists b :: b in reach && b < |g| && !Passes(g, pass.Snap(), b)
  {
    hide Passes, IsReach, Leveling, Progress, AllPeeped, Above, PeepedBlock, Chained, Denoted, Mapped;
    ghost var s := pass.Snap();
    AboveEnds(g, root, reach, level, levels);
    ok, g2 := true, g;
    PeepedNone(g, s, outUse);
    var i := level[root];
    while i >= 0
      invariant -1 <= i < |levels| == |g| == |g2| && ok && AllPeeped(g, s, outUse, Above(reach, level, levels, i, 0), g2)
    {
      var j := 0;
      while j < |levels[i]|
        invariant 0 <= j <= |levels[i]| && |g2| == |g| && ok && AllPeeped(g, s, outUse, Above(reach, level, levels, i, j), g2)
      {
        var b := levels[i][j];
        AboveNext(g, reach, level, levels, i, j);
        var n;
        ok, n := PeepBlk(g, pass, b, inEdges, outUse, reach);
        if !ok {
          assert !Passes(g, s, b);
          return;
        }
        StillPeeped(g, s, outUse, g2, b, n);
        PeepedNext(g, s, outUse, Above(reach, level, levels, i, j), g2, b, n);
        g2 := g2[b := n];
        j := j + 1;
      }
      AboveDrop(g, reach, level, levels, i);
      i := i - 1;
    }
  }

  lemma {:induction false} StillPeeped(g: Graph, s: Snapshot, outUse: seq<set<Atom>>, g2: Graph, b: Id, n: Node)
    requires b < |g| == |g2| == |outUse| && b < |s.val| && PeepedBlock(g, s, outUse, g[b := n], b)
    ensures PeepedBlock(g, s, outUse, g2[b := n], b)
  {
    hide Peeped, AllBits, XSpared, PeepOf, Squeezed;
  }

  method PeepBlk(g: Graph, pass: Pass, b: Id, inEdges: seq<seq<EdgeId>>, outUse: seq<set<Atom>>, ghost reach: set<Id>) returns (ok: bool, n: Node)
    requires b in reach && b < |g|
    requires pass.table.Valid() && Progress(g, pass.Snap(), inEdges, false, reach) && |outUse| == |g| == |pass.val|
    ensures ok ==> PeepedBlock(g, pass.Snap(), outUse, g[b := n], b)
    ensures ok <==> Passes(g, pass.Snap(), b)
    ensures g[b].s.Jmp? || g[b].stmts == [] ==> ok
  {
    hide Peeped, PeepOf, Squeezed, AllBits, XRedefined, EndsIn, Chained, Denoted, Numbered, OperandNumber, Distinct, Whole, ExactlyAll, ConstAt;
    ghost var s := pass.Snap();
    assert DoneAt(g, s, inEdges, false, b);
    Unaltered(g, s, inEdges, b);
    var val, t := pass.val[b], pass.table;
    ConstAtIs(t.vmap, t.keys, t.keys, val[X_ATOM]);
    ConstAtIs(t.vmap, t.keys, t.keys, val[A_ATOM]);
    if t.vmap[val[A_ATOM]].Some? {
      forall op | EndsIn(g[b].stmts, op) ensures false {
        OperationNotConst(g[b].stmts, EntryVals(g, s, inEdges, b), false, s.node[b].stmts, val, s.keys, op);
      }
    }
    var peeper := new Peeper(g[b], outUse[b], t.vmap[val[X_ATOM]], t.vmap[val[A_ATOM]]);
    ok := peeper.OptPeep();
    n := peeper.node;
  }

  lemma {:induction false} Unaltered(g: Graph, s: Snapshot, inEdges: seq<seq<EdgeId>>, b: Id)
    requires Shaped(g, s, inEdges) && b < |g| && DoneAt(g, s, inEdges, false, b)
    ensures s.node[b] == g[b]
  {
    hide Carries, ExactlyAll, OperandNumber;
  }

  lemma {:induction false} PeepedPass(g: Graph, s: Snapshot, outUse: seq<set<Atom>>, reach: set<Id>, g2: Graph)
    requires AllPeeped(g, s, outUse, reach, g2)
    ensures forall b :: b in reach ==> b < |g| && b < |s.val| && Passes(g, s, b)
  {
    hide Peeped, AllBits, XSpared, PeepOf, Squeezed;
    forall b | b in reach ensures b < |g| && b < |s.val| && Passes(g, s, b) {
      assert PeepedBlock(g, s, outUse, g2, b);
    }
  }

  lemma {:induction false} TableConstsMean(s: Snapshot)
    requires Denoted(s.den, s.keys)
    ensures ConstsMean(s)
  {
    forall n | 0 < n < |s.keys| && ConstAt(s.keys, n).Some? ensures s.den[n] == Const(ConstAt(s.keys, n).value) {
      DenotedAt(s.den, s.keys, n);
    }
  }
}
