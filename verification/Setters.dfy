/** When each atom but A is set by one block of a path at most, nothing is dropped that is read later. */
module Setters {
  import opened Bpf
  import opened Blocks
  import opened Reach
  import opened Dominators
  import opened InEdges
  import opened Liveness
  import opened Values
  import opened Treatments
  import opened ValueFlow
  import opened ValuePass
  import opened ValueSound
  import opened DeadStores
  import opened Cleanup

  /** The atoms that a list of statements sets. */
  function Defs(ss: seq<Stmt>): set<Atom> {
    if |ss| == 0 then {} else Defs(ss[1..]) + (if ss[0].Nop? then {} else {Def(ss[0])})
  }

  // Some block before c, on a path from the root, sets a.
  ghost predicate SetBefore(g: Graph, root: Id, a: Atom, c: Id)
    requires Closed(g) && root < |g|
  {
    exists b: Id, side, sides :: SetOn(g, root, a, b, side, sides, c)
  }

  ghost predicate SetOn(g: Graph, root: Id, a: Atom, b: Id, side: bool, sides: seq<bool>, c: Id)
    requires Closed(g) && root < |g|
  {
    b < |g| && Leads(g, root, b) && a in Defs(g[b].stmts) && g[b].s.Jmp? && Follows(g, g[b].Succ(side), sides, c)
  }

  /** On every path from the root, no atom but A and those of P is set by two blocks. */
  ghost predicate SetAgainOnly(g: Graph, root: Id, P: set<Atom>) {
    Closed(g) && root < |g|
    && forall c: Id, a: Atom {:trigger SetBefore(g, root, a, c)} ::
         c < |g| && a != A_ATOM && SetBefore(g, root, a, c) && a in Defs(g[c].stmts) ==> a in P
  }

  /** On every path from the root, each atom but A is set by one block at most. */
  ghost predicate SetOnce(g: Graph, root: Id) { SetAgainOnly(g, root, {}) }

  /** Only the atoms a block sets have other numbers at its end. */
  lemma {:induction false} OnlyDefs(ss: seq<Stmt>, val: Vals, alter: bool, ss2: seq<Stmt>, val2: Vals, keys: seq<Key>, a: Atom)
    requires ExactlyAll(ss, val, alter, ss2, val2, keys) && a !in Defs(ss)
    ensures val2[a] == val[a]
    decreases |ss|
  {
    hide PlanFor, Served, Def;
    if |ss| > 0 {
      OnlyDefs(ss[1..], Carry(PlanFor(ss[0], val, alter, keys), ss[0], val, alter, keys).1, alter, ss2[1..], val2, keys, a);
    }
  }

  /** An atom that has a number on entry to a block has been set before. */
  lemma {:induction false} NumberedSet(g: Graph, lv: Blocks.Levels, s: Snapshot, inEdges: seq<seq<EdgeId>>, alter: bool, root: Id, reach: set<Id>,
                                       c: Id, a: Atom)
    requires Finished(g, s, inEdges, alter, root, reach) && Leveled(g, lv) && c in reach
    ensures c < |g| && Shaped(g, s, inEdges) && lv[c] <= lv[root]
    ensures EntryVals(g, s, inEdges, c)[a] != 0 ==> SetBefore(g, root, a, c)
    decreases lv[root] as int - lv[c] as int
  {
    hide Numbered, Distinct, Whole, OperandNumber, Issued, ExactlyAll, SetOn, Follows, Leads;
    RootOnTop(g, lv, root, reach, c);
    var entry := EntryVals(g, s, inEdges, c);
    if entry[a] != 0 {
      var nums := PredNumbers(g, inEdges[c], s.val, a);
      assert entry[a] == Common(nums);
      var e := inEdges[c][0];
      assert EntersAt(g, reach, inEdges, c, e);
      var b, side := Tail(g, e), e < |g|;
      assert nums[0] == s.val[b][a];
      EdgeJumps(g, e);
      assert DoneAt(g, s, inEdges, alter, b);
      NumberedSet(g, lv, s, inEdges, alter, root, reach, b, a);
      ReachLeads(g, root, reach, b);
      if a in Defs(g[b].stmts) {
        SetHere(g, root, a, b, side);
      } else {
        OnlyDefs(g[b].stmts, EntryVals(g, s, inEdges, b), alter, s.node[b].stmts, s.val[b], s.keys, a);
        SetEarlier(g, root, a, b, side);
      }
    }
  }

  lemma {:induction false} EdgeJumps(g: Graph, e: EdgeId)
    requires Closed(g) && e < 2 * |g| && Head(g, e) >= 0
    ensures g[Tail(g, e)].s.Jmp? && Head(g, e) == g[Tail(g, e)].Succ(e < |g|)
  {
  }

  lemma {:induction false} SetHere(g: Graph, root: Id, a: Atom, b: Id, side: bool)
    requires Closed(g) && root < |g| && b < |g| && Leads(g, root, b) && a in Defs(g[b].stmts) && g[b].s.Jmp?
    ensures SetBefore(g, root, a, g[b].Succ(side))
  {
    hide Leads, Defs;
    assert SetOn(g, root, a, b, side, [], g[b].Succ(side));
  }

  lemma {:induction false} SetEarlier(g: Graph, root: Id, a: Atom, c: Id, side: bool)
    requires Closed(g) && root < |g| && c < |g| && g[c].s.Jmp? && SetBefore(g, root, a, c)
    ensures SetBefore(g, root, a, g[c].Succ(side))
  {
    hide Leads, Defs, Follows;
    var b: Id, s, sides :| SetOn(g, root, a, b, s, sides, c);
    FollowsEdge(g, c, side);
    FollowsOn(g, g[b].Succ(s), sides, c, [side], g[c].Succ(side));
    assert SetOn(g, root, a, b, s, sides + [side], g[c].Succ(side));
  }

  /** Of statements that read only atoms set before them, what rewriting leaves reads no others but A: those set have
      numbers, and an atom without one is not taken to be set already. */
  lemma {:induction false} ShortReads(ss: seq<Stmt>, val: Vals, ss2: seq<Stmt>, val2: Vals, keys: seq<Key>, have: set<Atom>, out: set<Atom>)
    requires ExactlyAll(ss, val, true, ss2, val2, keys) && LiveIn(ss, RetK(0), out) <= have
    requires forall a: Atom :: a in have ==> val[a] != 0
    requires forall a: Atom :: a in Defs(ss) && a !in have && a != A_ATOM ==> val[a] == 0
    ensures LiveIn(ss2, RetK(0), out) <= have + {A_ATOM}
    decreases |ss|
  {
    hide PlanFor, Served, Def, Uses, Carry;
    if |ss| > 0 {
      var s, s2 := ss[0], ss2[0];
      var mid := Carry(PlanFor(s, val, true, keys), s, val, true, keys).1;
      assert Exactly(s, val, true, s2, mid, keys);
      if s.Nop? {
        NopCarries(val, true, s2, mid, keys);
        ShortReads(ss[1..], mid, ss2[1..], val2, keys, have, out);
      } else {
        OneReads(s, val, true, s2, mid, keys, have);
        ShortReads(ss[1..], mid, ss2[1..], val2, keys, have + {Def(s)}, out);
      }
    }
  }

  lemma {:induction false} NopCarries(val: Vals, alter: bool, s2: Stmt, mid: Vals, keys: seq<Key>)
    requires Exactly(Nop, val, alter, s2, mid, keys)
    ensures s2 == Nop && mid == val
  {
  }

  /** One statement whose operands have numbers: it gives its atom a number, reads no more than before, and is dropped
      only if the atom had that number. */
  lemma {:induction false} OneReads(s: Stmt, val: Vals, alter: bool, s2: Stmt, mid: Vals, keys: seq<Key>, have: set<Atom>)
    requires Exactly(s, val, alter, s2, mid, keys) && !s.Nop? && Uses(s) <= have && forall a: Atom :: a in have ==> val[a] != 0
    ensures mid[Def(s)] != 0 && mid == val[Def(s) := mid[Def(s)]]
    ensures s2.Nop? ==> val[Def(s)] != 0
    ensures !s2.Nop? ==> Def(s2) == Def(s) && Uses(s2) <= Uses(s)
  {
    hide ConstAt, Compute;
    match s
    case LdMem(r) => assert r in Uses(s);
    case LdxMem(r) => assert r in Uses(s);
    case St(_) => assert A_ATOM in Uses(s);
    case Stx(_) => assert X_ATOM in Uses(s);
    case Tax => assert A_ATOM in Uses(s);
    case Txa => assert X_ATOM in Uses(s);
    case Alu(_, src) => assert A_ATOM in Uses(s) && (src.X? ==> X_ATOM in Uses(s));
    case _ =>
  }

  /** An atom that is read at the end but not from outside is set. */
  lemma {:induction false} ReadsSet(ss: seq<Stmt>, out: set<Atom>, a: Atom)
    requires a !in LiveIn(ss, RetK(0), out) && a in out
    ensures a in Defs(ss)
  {
    if |ss| > 0 && a !in LiveIn(ss[1..], RetK(0), out) { ReadsSet(ss[1..], out, a); }
  }

  /** What a block in generator form reads after the pass. */
  lemma {:induction false} BlockReads(g: Graph, s: Snapshot, inEdges: seq<seq<EdgeId>>, outUse: set<Atom>, b: Id, n2: Node)
    requires Shaped(g, s, inEdges) && b < |g| && DoneAt(g, s, inEdges, true, b) && SelfContained(g[b]) && g[b].s.Jmp?
    requires CleanedUp(g, s, inEdges, outUse, b, n2)
    requires forall a: Atom :: a in Defs(g[b].stmts) && a != A_ATOM ==> EntryVals(g, s, inEdges, b)[a] == 0
    ensures NodeReads(n2) <= {A_ATOM}
  {
    hide ExactlyAll, Numbered, Issued, OperandNumber, LiveIn, Needed, DropsDead, EntryVals, BranchUses;
    var ss, ss2, uses := g[b].stmts, s.node[b].stmts, BranchUses(g[b].s);
    var entry := EntryVals(g, s, inEdges, b);
    if Emptied(g, s, inEdges, outUse, b) {
      NothingRead(uses);
      if X_ATOM in uses {
        ReadsSet(ss, uses, X_ATOM);
        assert false;
      }
      UsesAX(g[b].s);
    } else {
      ShortReads(ss, entry, ss2, s.val[b], s.keys, {}, uses);
      NeededDrops(ss2, n2.stmts, outUse + uses);
      DropsFewer(ss2, n2.stmts, outUse + uses, uses);
      DropsLive(ss2, n2.stmts, uses);
    }
  }

  lemma {:induction false} NothingRead(out: set<Atom>)
    ensures LiveIn([], RetK(0), out) == out
  {
  }

  lemma {:induction false} UsesAX(br: Branch)
    ensures BranchUses(br) <= {A_ATOM, X_ATOM} && (br.Jmp? ==> A_ATOM in BranchUses(br) && CountedUses(br) == BranchUses(br))
    ensures br.RetK? ==> BranchUses(br) == {}
  {
  }

  lemma {:induction false} LiveByUses(ss: seq<Stmt>, br: Branch, out: set<Atom>)
    ensures LiveIn(ss, br, out) == LiveIn(ss, RetK(0), out + CountedUses(br))
  {
    hide Uses, Def;
    if |ss| > 0 { LiveByUses(ss[1..], br, out); }
  }

  /** In the result, at most A is live between blocks. */
  lemma {:induction false} OnlyALive(g: Graph, lv: Blocks.Levels, s: Snapshot, inEdges: seq<seq<EdgeId>>, outUse: seq<set<Atom>>, root: Id, reach: set<Id>,
                                     g2: Graph, in2: seq<set<Atom>>, out2: seq<set<Atom>>, b: Id)
    requires Finished(g, s, inEdges, true, root, reach) && Leveled(g, lv) && SetOnce(g, root) && b in reach
    requires forall c :: c in reach ==> c < |g| && SelfContained(g[c]) && !g[c].s.RetA?
    requires Tidied(g, s, inEdges, outUse, reach, g2) && LiveSets(g2, reach, in2, out2)
    ensures b < |g| == |g2| == |out2| == |in2| && Shaped(g, s, inEdges) && out2[b] <= {A_ATOM} && in2[b] <= {A_ATOM}
    ensures !g[b].s.Jmp? ==> out2[b] == {}
    decreases lv[b]
  {
    hide DoneAt, SetBefore, LiveIn, CleanedUp, Entering, EntryVals, SelfContained, Defs, Distinct, Whole, BranchUses;
    TidiedClosed(g, s, inEdges, outUse, reach, g2);
    TreatedBlock(g, s, inEdges, true, root, reach, b);
    assert LiveAt(g2, in2, out2, b) && TidiedAt(g, s, inEdges, outUse, g2, b);
    UsesAX(g[b].s);
    LiveByUses(g2[b].stmts, g2[b].s, out2[b]);
    if g[b].s.Jmp? {
      OnlyALive(g, lv, s, inEdges, outUse, root, reach, g2, in2, out2, g[b].jt);
      OnlyALive(g, lv, s, inEdges, outUse, root, reach, g2, in2, out2, g[b].jf);
      forall a: Atom | a in Defs(g[b].stmts) && a != A_ATOM ensures EntryVals(g, s, inEdges, b)[a] == 0 {
        NumberedSet(g, lv, s, inEdges, true, root, reach, b, a);
      }
      BlockReads(g, s, inEdges, outUse[b], b, g2[b]);
      LiveExtra(g2[b].stmts, BranchUses(g[b].s), out2[b]);
      assert out2[b] + BranchUses(g[b].s) == BranchUses(g[b].s) + out2[b];
    } else {
      ReturnsEmptied(g, s, inEdges, outUse[b], b, g2[b]);
      NothingRead({});
      assert out2[b] + CountedUses(g[b].s) == {};
    }
  }

  lemma {:induction false} ReturnsEmptied(g: Graph, s: Snapshot, inEdges: seq<seq<EdgeId>>, outUse: set<Atom>, b: Id, n2: Node)
    requires Shaped(g, s, inEdges) && b < |g| && CleanedUp(g, s, inEdges, outUse, b, n2) && !g[b].s.Jmp?
    ensures n2.stmts == []
  {
  }

  /** So nothing that is read has been dropped. */
  lemma {:induction false} SetOnceCovered(g: Graph, lv: Blocks.Levels, s: Snapshot, inEdges: seq<seq<EdgeId>>, outUse: seq<set<Atom>>,
                                          root: Id, reach: set<Id>, g2: Graph, in2: seq<set<Atom>>, out2: seq<set<Atom>>)
    requires Finished(g, s, inEdges, true, root, reach) && Leveled(g, lv) && SetOnce(g, root)
    requires forall c :: c in reach ==> c < |g| && SelfContained(g[c]) && !g[c].s.RetA?
    requires Tidied(g, s, inEdges, outUse, reach, g2) && LiveSets(g2, reach, in2, out2)
    ensures AllCovered(g, s, inEdges, outUse, reach, g2, out2)
  {
    hide DoneAt, SetOnce, LiveIn, CleanedUp, Entering, SelfContained, Covered, LiveSets, IsReach;
    TidiedClosed(g, s, inEdges, outUse, reach, g2);
    LiveSizes(g2, reach, in2, out2);
    forall b | b in reach ensures b < |g| && CoveredAt(g, s, inEdges, outUse, g2, out2, b) {
      OnlyALive(g, lv, s, inEdges, outUse, root, reach, g2, in2, out2, b);
      assert TidiedAt(g, s, inEdges, outUse, g2, b);
      AlwaysCovered(g, s, inEdges, outUse[b], b, g2[b], out2[b]);
    }
  }

  lemma {:induction false} LiveSizes(g: Graph, S: set<Id>, inUse: seq<set<Atom>>, outUse: seq<set<Atom>>)
    requires LiveSets(g, S, inUse, outUse)
    ensures |outUse| == |inUse| == |g|
  {
  }

  /** A is read by every branch, so it is never dropped. */
  lemma {:induction false} AlwaysCovered(g: Graph, s: Snapshot, inEdges: seq<seq<EdgeId>>, outUse: set<Atom>, b: Id, n2: Node, out: set<Atom>)
    requires Shaped(g, s, inEdges) && b < |g| && CleanedUp(g, s, inEdges, outUse, b, n2)
    requires out <= {A_ATOM} && (!g[b].s.Jmp? ==> out == {})
    ensures Covered(g, s, inEdges, outUse, b, n2, out)
  {
    hide Needed, BranchUses, DropsDead;
    var ss, uses := s.node[b].stmts, BranchUses(g[b].s);
    UsesAX(g[b].s);
    if !Emptied(g, s, inEdges, outUse, b) {
      NeededDrops(ss, n2.stmts, outUse + uses);
      DropsFewer(ss, n2.stmts, outUse + uses, out + uses);
    }
  }
}
