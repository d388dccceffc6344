/** The peephole rules as one round. */
module PeepRounds {
  import opened Bpf
  import opened Blocks
  import opened Reach
  import opened Levels
  import opened Dominators
  import opened InEdges
  import opened Values
  import opened Numbering
  import opened Rounds
  import Liveness
  import Peephole
  import PeepRuns
  import ValuePass
  import ValueSound

  /** No branch is, or can be made, a test of all bits that matters. */
  predicate NoAllBits(g: Graph) { forall b {:trigger g[b]} :: 0 <= b < |g| && Peephole.AllBits(g[b], {}) ==> g[b].jt == g[b].jf }

  lemma {:induction false} NoneMatters(g: Graph, outUse: seq<set<Atom>>)
    requires NoAllBits(g) && |outUse| == |g|
    ensures forall b :: 0 <= b < |g| ==> PeepRuns.OnesHarmless(g[b], outUse[b])
  {
    hide Peephole.EndsIn, Peephole.Scans;
    forall b | 0 <= b < |g| ensures PeepRuns.OnesHarmless(g[b], outUse[b]) {
      if Peephole.AllBits(g[b], outUse[b]) { assert Peephole.AllBits(g[b], {}); }
    }
  }

  // What the round worked with: numbers, incoming edges, live atoms and the blocks reached.
  datatype PeepLog = PeepLog(s: ValuePass.Snapshot, inEdges: seq<seq<EdgeId>>, inUse: seq<set<Atom>>, outUse: seq<set<Atom>>, reach: set<Id>)

  // The numbers and the live atoms are those of g.
  ghost predicate LogOf(g: Graph, root: Id, log: PeepLog) {
    && ValueSound.Finished(g, log.s, log.inEdges, false, root, log.reach) && |log.s.val| == |g|
    && Liveness.LiveSets(g, log.reach, log.inUse, log.outUse)
  }

  /** g2 is g with the rules applied to every block reached, by the numbers and live atoms of g; the other blocks are as before. */
  ghost predicate PeepsOf(g: Graph, root: Id, log: PeepLog, g2: Graph) {
    LogOf(g, root, log) && PeepRuns.AllPeeped(g, log.s, log.outUse, log.reach, g2)
  }

  /** Level the graph, find live atoms and value numbers, and apply the peephole rules to every block: the result of every run that
      does not fault is kept, unless a block comes to test all bits or reads X after a folded load. Only a block that returns after
      setting A to a constant makes it abort. */
  method PeepRound(g: Graph, root: Id, ghost lv: Blocks.Levels) returns (ok: bool, g2: Graph, ghost log: PeepLog)
    requires Leveled(g, lv) && root < |g|
    ensures LogOf(g, root, log) && (ok <==> forall b :: b in log.reach ==> b < |g| && PeepRuns.Passes(g, log.s, b))
    ensures ok ==> PeepsOf(g, root, log, g2)
    ensures PlainReturns(g) ==> ok
    ensures ok ==> Leveled(g2, lv) && |g2| == |g|
    ensures ok && ReturnsConstants(g) && PeepRuns.XSettled(g) && NoAllBits(g) ==> KeepsResults(g, g2, root, lv)
  {
    hide IsReach, Leveling, Entering, Liveness.LiveSets, ValuePass.Progress, Chained, Mapped, PeepRuns.AllPeeped, PeepRuns.XSettled, Run,
         PlainReturns, NoAllBits, Denoted, ReturnsConstants, KeepsResults, PeepRuns.Passes;
    var leveler := new Leveler(g);
    ghost var reach := leveler.FindLevels(root, lv);
    var level, levels := leveler.level, leveler.levels;
    var ud := new Liveness.UseDef(g);
    ud.FindUd(root, level, levels, reach);
    var lists := new EdgeLists(g);
    lists.FindInedges(root, level, levels, reach);
    var room := MaxValues(g);
    var table := new ValueTable(room);
    var pass := new ValuePass.Pass(g, table);
    ghost var at;
    ok, at := pass.OptBlks(root, level, levels, lists.inEdges, false, reach);
    ValuePass.ProgressSizes(g, pass.Snap(), lists.inEdges, false, reach);
    log := PeepLog(pass.Snap(), lists.inEdges, ud.inUse, ud.outUse, reach);
    ok, g2 := PeepRuns.PeepBlks(g, pass, root, level, levels, lists.inEdges, ud.outUse, reach);
    PeepRuns.TableConstsMean(pass.Snap());
    if !ok { return; }
    PeepRuns.PeepedPass(g, pass.Snap(), ud.outUse, reach, g2);
    PeepRuns.PeepedClosed(g, lv, pass.Snap(), ud.outUse, reach, g2);
    PeepedSize(g, pass.Snap(), ud.outUse, reach, g2);
    if ReturnsConstants(g) && PeepRuns.XSettled(g) && NoAllBits(g) {
      PeepKeeps(g, g2, root, lv, pass.Snap(), lists.inEdges, ud.inUse, ud.outUse, reach);
    }
  }

  lemma {:induction false} PeepedSize(g: Graph, s: ValuePass.Snapshot, outUse: seq<set<Atom>>, reach: set<Id>, g2: Graph)
    requires PeepRuns.AllPeeped(g, s, outUse, reach, g2)
    ensures |g2| == |g|
  {
  }

  lemma {:induction false} PeepKeeps(g: Graph, g2: Graph, root: Id, lv: Blocks.Levels, s: ValuePass.Snapshot, inEdges: seq<seq<EdgeId>>,
                                     inUse: seq<set<Atom>>, outUse: seq<set<Atom>>, reach: set<Id>)
    requires ValueSound.Finished(g, s, inEdges, false, root, reach) && Leveled(g, lv) && root < |g| && PeepRuns.ConstsMean(s)
    requires Liveness.LiveSets(g, reach, inUse, outUse) && PeepRuns.AllPeeped(g, s, outUse, reach, g2)
    requires NoAllBits(g) && ReturnsConstants(g) && PeepRuns.XSettled(g)
    ensures KeepsResults(g, g2, root, lv)
  {
    hide Entering, ValuePass.Progress, Run, PeepRuns.ConstsMean, PeepRuns.OnesHarmless, Peephole.AllBits, Liveness.LiveAt, Peephole.XRedefined;
    PeepRuns.PeepedClosed(g, lv, s, outUse, reach, g2);
    NoneMatters(g, outUse);
    forall st: State, p: Packet, fuel: nat | lv[root] < fuel
      ensures Run(g, root, st, p, fuel) == Fault || Run(g2, root, st, p, fuel) == Run(g, root, st, p, fuel)
    {
      PeepRuns.PeepsSafe(g, lv, s, inEdges, inUse, outUse, root, reach, g2, st, p, fuel);
    }
  }
}
