/** What a pass does to a block once its statements are numbered: it empties it, or drops its
    dead stores. Both go by what was live before the pass. */
module Cleanup {
  import opened Bpf
  import opened Blocks
  import opened Reach
  import opened Levels
  import opened Dominators
  import opened InEdges
  import opened Liveness
  import opened Values
  import opened Rewrites
  import opened Treatments
  import opened ValueFlow
  import opened ValuePass
  import opened ValueSound
  import opened DeadStores

  // The atoms live after the first k statements of a block, if those of keep are at its end.
  function LiveAfter(ss: seq<Stmt>, k: nat, keep: set<Atom>): set<Atom>
    requires k <= |ss|
  {
    LiveIn(ss[k..], RetK(0), keep)
  }

  lemma {:induction false} FateLive(ss: seq<Stmt>, a: Atom, k: nat, keep: set<Atom>)
    requires k <= |ss|
    ensures a in LiveAfter(ss, k, keep) <==> var f := FateOf(ss, a, k, |ss|); f.Read? || (f.Reaches? && a in keep)
    decreases |ss| - k
  {
    hide Uses, Def;
    if k < |ss| {
      assert ss[k..][0] == ss[k] && ss[k..][1..] == ss[k+1..];
      FateLive(ss, a, k + 1, keep);
      if ss[k].Nop? { NopReadsNothing(); }
    }
  }

  lemma {:induction false} NopReadsNothing()
    ensures Uses(Nop) == {}
  {
  }

  /** The stores kept by dead-store removal are exactly those whose atom is live after them. */
  lemma {:induction false} NeededLive(ss: seq<Stmt>, k: nat, keep: set<Atom>)
    requires k < |ss|
    ensures Needed(ss, k, keep) <==> !ss[k].Nop? && Def(ss[k]) in LiveAfter(ss, k + 1, keep)
  {
    hide Uses, Def, FateOf, LiveAfter;
    if !ss[k].Nop? { FateLive(ss, Def(ss[k]), k + 1, keep); }
  }

  predicate DroppedAt(ss: seq<Stmt>, ss2: seq<Stmt>, keep: set<Atom>, k: nat)
    requires k < |ss| == |ss2|
  {
    ss2[k] == ss[k] || (ss2[k].Nop? && Def(ss[k]) !in LiveAfter(ss, k + 1, keep))
  }

  /** Only stores to atoms that are not live after them are gone. */
  predicate DropsDead(ss: seq<Stmt>, ss2: seq<Stmt>, keep: set<Atom>) {
    |ss| == |ss2| && forall k {:trigger DroppedAt(ss, ss2, keep, k)} :: 0 <= k < |ss| ==> DroppedAt(ss, ss2, keep, k)
  }

  lemma {:induction false} DropsDeadTail(ss: seq<Stmt>, ss2: seq<Stmt>, keep: set<Atom>)
    requires DropsDead(ss, ss2, keep) && |ss| > 0
    ensures DropsDead(ss[1..], ss2[1..], keep)
  {
    hide LiveIn, Def;
    forall k | 0 <= k < |ss[1..]| ensures DroppedAt(ss[1..], ss2[1..], keep, k) {
      assert DroppedAt(ss, ss2, keep, k + 1);
      assert ss[1..][k+1..] == ss[k+2..];
    }
  }

  /** Dropping any choice of such stores keeps the atoms of keep, from states that agree on what is live. */
  lemma {:induction false} DeadDropped(ss: seq<Stmt>, ss2: seq<Stmt>, keep: set<Atom>, x: State, y: State, p: Packet)
    requires DropsDead(ss, ss2, keep) && AgreeOn(LiveIn(ss, RetK(0), keep), x, y) && Exec(ss, x, p).Some?
    ensures Exec(ss2, y, p).Some? && AgreeOn(keep, Exec(ss, x, p).value, Exec(ss2, y, p).value)
  {
    hide Uses, Def, Step;
    if |ss| != 0 {
      DropsDeadTail(ss, ss2, keep);
      assert DroppedAt(ss, ss2, keep, 0);
      NopSteps(x, p);
      NopSteps(y, p);
      if ss[0].Nop? {
        DeadDropped(ss[1..], ss2[1..], keep, x, y, p);
      } else {
        var rest := LiveIn(ss[1..], RetK(0), keep);
        if ss2[0] == ss[0] {
          StepAgrees(ss[0], rest, x, y, p);
          DeadDropped(ss[1..], ss2[1..], keep, Step(ss[0], x, p).value, Step(ss[0], y, p).value, p);
        } else {
          StepsOnly(ss[0], x, p);
          OthersAll(Def(ss[0]), rest);
          DeadDropped(ss[1..], ss2[1..], keep, Step(ss[0], x, p).value, y, p);
        }
      }
    }
  }

  /** Dropping dead stores makes no atom live that was not. */
  lemma {:induction false} DropsLive(ss: seq<Stmt>, ss2: seq<Stmt>, keep: set<Atom>)
    requires DropsDead(ss, ss2, keep)
    ensures LiveIn(ss2, RetK(0), keep) <= LiveIn(ss, RetK(0), keep)
  {
    hide Uses, Def;
    if |ss| != 0 {
      DropsDeadTail(ss, ss2, keep);
      assert DroppedAt(ss, ss2, keep, 0);
      DropsLive(ss[1..], ss2[1..], keep);
    }
  }

  lemma {:induction false} DropsFewer(ss: seq<Stmt>, ss2: seq<Stmt>, keep: set<Atom>, less: set<Atom>)
    requires DropsDead(ss, ss2, keep) && less <= keep
    ensures DropsDead(ss, ss2, less)
  {
    hide LiveIn, Def;
    forall k | 0 <= k < |ss| ensures DroppedAt(ss, ss2, less, k) {
      assert DroppedAt(ss, ss2, keep, k);
      LiveMore(ss[k+1..], less, keep);
    }
  }

  /** What dead-store removal leaves. */
  lemma {:induction false} NeededDrops(ss: seq<Stmt>, ss2: seq<Stmt>, keep: set<Atom>)
    requires |ss| == |ss2| && forall k :: 0 <= k < |ss| ==> ss2[k] == if Needed(ss, k, keep) then ss[k] else Nop
    ensures DropsDead(ss, ss2, keep)
  {
    hide LiveIn, Def, Needed;
    forall k | 0 <= k < |ss| ensures DroppedAt(ss, ss2, keep, k) {
      NeededLive(ss, k, keep);
    }
  }

  lemma {:induction false} OthersAll(a: Atom, S: set<Atom>)
    requires a !in S
    ensures S <= Others(a)
  {
  }

  predicate Unmoved(entry: Vals, exit: Vals) {
    entry[A_ATOM] != 0 && exit[A_ATOM] == entry[A_ATOM] && entry[X_ATOM] != 0 && exit[X_ATOM] == entry[X_ATOM]
  }

  /** Nothing is read from the block's end on, and A and X end with the numbers they came with; or it returns. */
  predicate Emptied(g: Graph, s: Snapshot, inEdges: seq<seq<EdgeId>>, outUse: set<Atom>, b: Id)
    requires Shaped(g, s, inEdges) && b < |g|
  {
    !g[b].s.Jmp? || (outUse == {} && Unmoved(EntryVals(g, s, inEdges, b), s.val[b]))
  }

  /** The statements left of a block whose statements were numbered and simplified. */
  predicate CleanedUp(g: Graph, s: Snapshot, inEdges: seq<seq<EdgeId>>, outUse: set<Atom>, b: Id, n2: Node)
    requires Shaped(g, s, inEdges) && b < |g|
  {
    var ss, keep := s.node[b].stmts, outUse + BranchUses(g[b].s);
    && n2 == g[b].(stmts := n2.stmts)
    && (if Emptied(g, s, inEdges, outUse, b) then n2.stmts == []
        else |n2.stmts| == |ss| && forall k :: 0 <= k < |ss| ==> n2.stmts[k] == if Needed(ss, k, keep) then ss[k] else Nop)
  }

  /** What is read of the block in the graph left by the pass has not been dropped from it. */
  predicate Covered(g: Graph, s: Snapshot, inEdges: seq<seq<EdgeId>>, outUse: set<Atom>, b: Id, n2: Node, out: set<Atom>)
    requires Shaped(g, s, inEdges) && b < |g|
  {
    if Emptied(g, s, inEdges, outUse, b) then out <= {A_ATOM, X_ATOM}
    else DropsDead(s.node[b].stmts, n2.stmts, out + BranchUses(g[b].s))
  }

  /** So it is where the pass makes no block read more of what an earlier one left. */
  lemma {:induction false} NoMoreCovered(g: Graph, s: Snapshot, inEdges: seq<seq<EdgeId>>, outUse: set<Atom>, b: Id, n2: Node, out: set<Atom>)
    requires Shaped(g, s, inEdges) && b < |g| && CleanedUp(g, s, inEdges, outUse, b, n2)
    requires out <= outUse && (!g[b].s.Jmp? ==> out == {})
    ensures Covered(g, s, inEdges, outUse, b, n2, out)
  {
    hide Needed, BranchUses, DropsDead;
    var ss, more, keep := s.node[b].stmts, outUse + BranchUses(g[b].s), out + BranchUses(g[b].s);
    if !Emptied(g, s, inEdges, outUse, b) {
      NeededDrops(ss, n2.stmts, more);
      DropsFewer(ss, n2.stmts, more, keep);
    }
  }

  /** A and X keep their values through a block at whose end they have the numbers they came with. */
  lemma {:induction false} NumbersUnmoved(g: Graph, s: Snapshot, inEdges: seq<seq<EdgeId>>, b: Id, x: State, x': State, p: Packet)
    requires Shaped(g, s, inEdges) && b < |g| && Emptied(g, s, inEdges, {}, b) && g[b].s.Jmp? && Whole(s.den)
    requires EntryHolds(g, s, inEdges, b, x, p)
    requires Issued(s.val[b], |s.den|) && Holds(SymOf(s.den, s.val[b]), x', p)
    ensures AgreeOn({A_ATOM, X_ATOM}, x, x')
  {
    hide TermHolds, Solid, Inherited, Holds;
    var entry := EntryVals(g, s, inEdges, b);
    forall a: Atom | a in {A_ATOM, X_ATOM} ensures x[a] == x'[a] {
      HoldsAt(SymOf(s.den, entry), x, p, a);
      HoldsAt(SymOf(s.den, s.val[b]), x', p, a);
      OneValue(s.den[entry[a]], x[a], x'[a], p);
    }
  }

  /** One block: where the original ends without a fault, what is left of it ends alike. */
  lemma {:induction false} BlockCleaned(g: Graph, s: Snapshot, inEdges: seq<seq<EdgeId>>, outUse: set<Atom>, b: Id, n2: Node, out: set<Atom>,
                                        x: State, y: State, p: Packet)
    requires Shaped(g, s, inEdges) && b < |g| && DoneAt(g, s, inEdges, true, b) && Whole(s.den) && ReadsKnown(g, s, inEdges, b)
    requires EntryHolds(g, s, inEdges, b, x, p) && Exec(g[b].stmts, x, p).Some?
    requires CleanedUp(g, s, inEdges, outUse, b, n2) && Covered(g, s, inEdges, outUse, b, n2, out)
    requires AgreeOn(LiveIn(n2.stmts, n2.s, out), x, y) && (!g[b].s.Jmp? ==> out == {})
    ensures Exec(n2.stmts, y, p).Some?
    ensures AgreeOn(out + CountedUses(g[b].s), Exec(g[b].stmts, x, p).value, Exec(n2.stmts, y, p).value)
    ensures Issued(s.val[b], |s.den|) && Holds(SymOf(s.den, s.val[b]), Exec(g[b].stmts, x, p).value, p)
  {
    hide Exposed, Exec, SymExec, LiveIn, Holds, Whole, ReadsKnown, Inherited, Needed, DropsDead;
    var entry := EntryVals(g, s, inEdges, b);
    KnownFirm(g, s, inEdges, b);
    assert CarriesAt(g[b].stmts, s.node[b].stmts, SymOf(s.den, entry), SymOf(s.den, s.val[b]), x, p);
    var x' := Exec(g[b].stmts, x, p).value;
    ExecAgrees(n2.stmts, n2.s, out, x, y, p);
    if Emptied(g, s, inEdges, outUse, b) {
      NothingLeft(x, p);
      NothingLeft(y, p);
      if g[b].s.Jmp? { NumbersUnmoved(g, s, inEdges, b, x, x', p); }
    } else {
      DeadDropped(s.node[b].stmts, n2.stmts, out + BranchUses(g[b].s), x, x, p);
    }
  }

  /** The blocks of done have been cleaned up, the others have their original statements. */
  ghost predicate Tidied(g: Graph, s: Snapshot, inEdges: seq<seq<EdgeId>>, outUse: seq<set<Atom>>, done: set<Id>, g2: Graph) {
    && Shaped(g, s, inEdges) && |g| == |outUse| == |g2| && (forall b :: b in done ==> b < |g|)
    && (forall b {:trigger g2[b]} :: 0 <= b < |g| && b !in done ==> g2[b] == g[b])
    && forall b {:trigger TidiedAt(g, s, inEdges, outUse, g2, b)} :: b in done ==> b < |g| && TidiedAt(g, s, inEdges, outUse, g2, b)
  }

  predicate TidiedAt(g: Graph, s: Snapshot, inEdges: seq<seq<EdgeId>>, outUse: seq<set<Atom>>, g2: Graph, b: Id)
    requires Shaped(g, s, inEdges) && b < |g| == |outUse| == |g2|
  {
    CleanedUp(g, s, inEdges, outUse[b], b, g2[b])
  }

  /** out are the atoms live at block ends in g2: what the result reads there has not been dropped. */
  ghost predicate AllCovered(g: Graph, s: Snapshot, inEdges: seq<seq<EdgeId>>, outUse: seq<set<Atom>>, reach: set<Id>, g2: Graph,
                             out: seq<set<Atom>>)
  {
    && Shaped(g, s, inEdges) && |g| == |outUse| == |g2| == |out|
    && forall b {:trigger CoveredAt(g, s, inEdges, outUse, g2, out, b)} :: b in reach ==> b < |g| && CoveredAt(g, s, inEdges, outUse, g2, out, b)
  }

  predicate CoveredAt(g: Graph, s: Snapshot, inEdges: seq<seq<EdgeId>>, outUse: seq<set<Atom>>, g2: Graph, out: seq<set<Atom>>, b: Id)
    requires Shaped(g, s, inEdges) && b < |g| == |outUse| == |g2| == |out|
  {
    Covered(g, s, inEdges, outUse[b], b, g2[b], out[b])
  }

  lemma {:induction false} TidiedClosed(g: Graph, s: Snapshot, inEdges: seq<seq<EdgeId>>, outUse: seq<set<Atom>>, reach: set<Id>, g2: Graph)
    requires Closed(g) && Tidied(g, s, inEdges, outUse, reach, g2)
    ensures Closed(g2) && |g2| == |g| && forall b :: 0 <= b < |g| ==> g2[b] == g[b].(stmts := g2[b].stmts)
  {
    hide Emptied, Needed;
    forall b | 0 <= b < |g| ensures g2[b] == g[b].(stmts := g2[b].stmts) {
      if b in reach { assert TidiedAt(g, s, inEdges, outUse, g2, b); }
    }
  }

  lemma {:induction false} CleanedStep(g: Graph, s: Snapshot, inEdges: seq<seq<EdgeId>>, outUse: seq<set<Atom>>, root: Id, reach: set<Id>,
                                       g2: Graph, in2: seq<set<Atom>>, out2: seq<set<Atom>>, b: Id, x: State, y: State, p: Packet)
    requires Finished(g, s, inEdges, true, root, reach) && b in reach && EntryHolds(g, s, inEdges, b, x, p)
    requires Shaped(g, s, inEdges) && Whole(s.den) && ReadsKnown(g, s, inEdges, b)
    requires Tidied(g, s, inEdges, outUse, reach, g2) && LiveSets(g2, reach, in2, out2) && AllCovered(g, s, inEdges, outUse, reach, g2, out2)
    requires AgreeOn(in2[b], x, y) && Exec(g[b].stmts, x, p).Some?
    ensures |g2| == |g| && Exec(g2[b].stmts, y, p).Some? && g2[b].s == g[b].s && g2[b].jt == g[b].jt && g2[b].jf == g[b].jf
    ensures AgreeOn(out2[b] + CountedUses(g[b].s), Exec(g[b].stmts, x, p).value, Exec(g2[b].stmts, y, p).value)
    ensures Issued(s.val[b], |s.den|) && Holds(SymOf(s.den, s.val[b]), Exec(g[b].stmts, x, p).value, p)
    ensures g[b].s.Jmp? ==> out2[b] == in2[g[b].jt] + in2[g[b].jf]
  {
    hide DoneAt, ReadsKnown, CleanedUp, Covered, Exec, Holds, Whole, LiveIn, EntryHolds, Entering, IsReach;
    TidiedClosed(g, s, inEdges, outUse, reach, g2);
    TreatedBlock(g, s, inEdges, true, root, reach, b);
    assert TidiedAt(g, s, inEdges, outUse, g2, b) && CoveredAt(g, s, inEdges, outUse, g2, out2, b) && LiveAt(g2, in2, out2, b);
    BlockCleaned(g, s, inEdges, outUse[b], b, g2[b], out2[b], x, y, p);
  }

  /** The cleaned-up graph, from a state that agrees on what it still reads, ends as the original does. */
  lemma {:induction false} CleanedRun(g: Graph, s: Snapshot, inEdges: seq<seq<EdgeId>>, outUse: seq<set<Atom>>, root: Id, reach: set<Id>,
                                      g2: Graph, in2: seq<set<Atom>>, out2: seq<set<Atom>>, b: Id, x: State, y: State, p: Packet, fuel: nat)
    requires Finished(g, s, inEdges, true, root, reach) && b in reach && EntryHolds(g, s, inEdges, b, x, p)
    requires Shaped(g, s, inEdges) && Whole(s.den) && forall c :: c in reach ==> c < |g| && ReadsKnown(g, s, inEdges, c) && !g[c].s.RetA?
    requires Tidied(g, s, inEdges, outUse, reach, g2) && LiveSets(g2, reach, in2, out2) && AllCovered(g, s, inEdges, outUse, reach, g2, out2)
    requires AgreeOn(in2[b], x, y)
    ensures Run(g, b, x, p, fuel) != Fault ==> Run(g2, b, y, p, fuel) == Run(g, b, x, p, fuel)
    decreases fuel
  {
    hide IsReach, Entering, Progress, Holds, Taken, Exec, Whole, ReadsKnown, Tidied, AllCovered, EntryHolds, LiveAt, AgreeOn, CountedUses;
    TreatedBlock(g, s, inEdges, true, root, reach, b);
    if fuel > 0 && Exec(g[b].stmts, x, p).Some? {
      CleanedStep(g, s, inEdges, outUse, root, reach, g2, in2, out2, b, x, y, p);
      var x', y' := Exec(g[b].stmts, x, p).value, Exec(g2[b].stmts, y, p).value;
      if g[b].s.Jmp? {
        AgreeLess(CountedUses(g[b].s), out2[b] + CountedUses(g[b].s), x', y');
        SameSide(g[b].s, x', y');
        var side := Taken(g[b].s, x');
        EdgeCarries(g, s, inEdges, true, root, reach, b, side, x', p);
        AgreeLess(in2[g[b].Succ(side)], out2[b] + CountedUses(g[b].s), x', y');
        CleanedRun(g, s, inEdges, outUse, root, reach, g2, in2, out2, g[b].Succ(side), x', y', p, fuel - 1);
      }
    }
  }

  /** One pass of numbering and cleaning up keeps the result of every run that does not fault, if what
      the rewritten blocks read has not been dropped. */
  lemma {:induction false} CleanupSafe(g: Graph, lv: Blocks.Levels, s: Snapshot, inEdges: seq<seq<EdgeId>>, outUse: seq<set<Atom>>, root: Id, reach: set<Id>,
                                       g2: Graph, in2: seq<set<Atom>>, out2: seq<set<Atom>>, st: State, p: Packet, fuel: nat)
    requires Finished(g, s, inEdges, true, root, reach) && Leveled(g, lv)
    requires forall c :: c in reach ==> Shaped(g, s, inEdges) && c < |g| && ReadsKnown(g, s, inEdges, c) && !g[c].s.RetA?
    requires Tidied(g, s, inEdges, outUse, reach, g2) && LiveSets(g2, reach, in2, out2) && AllCovered(g, s, inEdges, outUse, reach, g2, out2)
    ensures Run(g, root, st, p, fuel) != Fault ==> Run(g2, root, st, p, fuel) == Run(g, root, st, p, fuel)
  {
    hide DoneAt, ReadsKnown, Entering, EntryHolds, Tidied, AllCovered;
    RootHolds(g, lv, s, inEdges, true, root, reach, st, p);
    assert Whole(s.den);
    CleanedRun(g, s, inEdges, outUse, root, reach, g2, in2, out2, root, st, st, p, fuel);
  }

  /** In particular where no block of the result reads more of what earlier ones left than before. */
  lemma {:induction false} NoMoreReads(g: Graph, s: Snapshot, inEdges: seq<seq<EdgeId>>, outUse: seq<set<Atom>>, reach: set<Id>,
                                       g2: Graph, in2: seq<set<Atom>>, out2: seq<set<Atom>>)
    requires Closed(g) && Tidied(g, s, inEdges, outUse, reach, g2) && LiveSets(g2, reach, in2, out2)
    requires forall b :: b in reach ==> b < |g| && out2[b] <= outUse[b]
    ensures AllCovered(g, s, inEdges, outUse, reach, g2, out2)
  {
    hide CleanedUp, Covered, LiveIn;
    TidiedClosed(g, s, inEdges, outUse, reach, g2);
    forall b | b in reach ensures b < |g| && CoveredAt(g, s, inEdges, outUse, g2, out2, b) {
      assert TidiedAt(g, s, inEdges, outUse, g2, b) && LiveAt(g2, in2, out2, b);
      NoMoreCovered(g, s, inEdges, outUse[b], b, g2[b], out2[b]);
    }
  }

  lemma {:induction false} TidiedNone(g: Graph, s: Snapshot, inEdges: seq<seq<EdgeId>>, outUse: seq<set<Atom>>)
    requires Shaped(g, s, inEdges) && |outUse| == |g|
    ensures Tidied(g, s, inEdges, outUse, {}, g)
  {
  }

  lemma {:induction false} TidiedNext(g: Graph, s: Snapshot, inEdges: seq<seq<EdgeId>>, outUse: seq<set<Atom>>, done: set<Id>, g2: Graph,
                                      b: Id, n2: Node)
    requires Tidied(g, s, inEdges, outUse, done, g2) && b < |g| && CleanedUp(g, s, inEdges, outUse[b], b, n2)
    ensures |g2| == |g| && Tidied(g, s, inEdges, outUse, done + {b}, g2[b := n2])
  {
    hide CleanedUp;
    var g3 := g2[b := n2];
    forall c | c in done + {b} ensures c < |g| && TidiedAt(g, s, inEdges, outUse, g3, c) {
      if c != b { assert TidiedAt(g, s, inEdges, outUse, g2, c); }
    }
  }

  /** The end of opt_blk: empty the block, or drop its dead stores. */
  method FinishBlk(ss: seq<Stmt>, br: Branch, outUse: set<Atom>, entry: Vals, exit: Vals) returns (ss2: seq<Stmt>)
    ensures if !br.Jmp? || (outUse == {} && Unmoved(entry, exit)) then ss2 == []
            else |ss2| == |ss| && forall k :: 0 <= k < |ss| ==> ss2[k] == if Needed(ss, k, outUse + BranchUses(br)) then ss[k] else Nop
  {
    hide Needed, Trimmed;
    var aval, xval := entry[A_ATOM], entry[X_ATOM];
    if (outUse == {} && aval != 0 && exit[A_ATOM] == aval && xval != 0 && exit[X_ATOM] == xval) || !br.Jmp? {
      ss2 := [];
    } else {
      var sweeper := new Sweeper(ss);
      sweeper.OptDeadstores(br, outUse);
      ss2 := sweeper.stmts;
    }
  }

  lemma {:induction false} CleanedHere(g: Graph, s: Snapshot, inEdges: seq<seq<EdgeId>>, outUse: set<Atom>, b: Id, ss2: seq<Stmt>)
    requires Shaped(g, s, inEdges) && b < |g|
    requires var entry, exit, ss := Inherited(g, inEdges[b], s.val), s.val[b], s.node[b].stmts;
      if !g[b].s.Jmp? || (outUse == {} && Unmoved(entry, exit)) then ss2 == []
      else |ss2| == |ss| && forall k :: 0 <= k < |ss| ==> ss2[k] == if Needed(ss, k, outUse + BranchUses(g[b].s)) then ss[k] else Nop
    ensures CleanedUp(g, s, inEdges, outUse, b, g[b].(stmts := ss2))
  {
    hide Needed, Inherited;
  }

  /** Clean up every reachable block of a numbered graph. */
  method FinishBlks(g: Graph, pass: Pass, root: Id, level: seq<nat>, levels: seq<seq<Id>>, inEdges: seq<seq<EdgeId>>, outUse: seq<set<Atom>>,
                    ghost reach: set<Id>) returns (g2: Graph)
    requires IsReach(g, root, reach) && Leveling(g, reach, level, levels)
    requires Progress(g, pass.Snap(), inEdges, true, reach) && |outUse| == |g|
    ensures Tidied(g, pass.Snap(), inEdges, outUse, reach, g2)
  {
    hide IsReach, Leveling, Progress, Tidied, Above, Needed;
    ghost var s := pass.Snap();
    PassShape(g, s, inEdges, true, reach);
    AboveEnds(g, root, reach, level, levels);
    g2 := g;
    TidiedNone(g, s, inEdges, outUse);
    var i := level[root];
    while i >= 0
      invariant -1 <= i < |levels| == |g| == |g2| && Tidied(g, s, inEdges, outUse, Above(reach, level, levels, i, 0), g2)
    {
      var j := 0;
      while j < |levels[i]|
        invariant 0 <= j <= |levels[i]| && |g2| == |g| && Tidied(g, s, inEdges, outUse, Above(reach, level, levels, i, j), g2)
      {
        var b := levels[i][j];
        AboveNext(g, reach, level, levels, i, j);
        var entry := Inherit(g, inEdges[b], pass.val);
        var ss := FinishBlk(pass.node[b].stmts, g[b].s, outUse[b], entry, pass.val[b]);
        var n := g[b].(stmts := ss);
        CleanedHere(g, s, inEdges, outUse[b], b, ss);
        TidiedNext(g, s, inEdges, outUse, Above(reach, level, levels, i, j), g2, b, n);
        g2 := g2[b := n];
        j := j + 1;
      }
      AboveDrop(g, reach, level, levels, i);
      i := i - 1;
    }
  }

  lemma {:induction false} PassShape(g: Graph, s: Snapshot, inEdges: seq<seq<EdgeId>>, alter: bool, reach: set<Id>)
    requires Progress(g, s, inEdges, alter, reach)
    ensures Shaped(g, s, inEdges)
  {
  }
}
