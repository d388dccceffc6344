/** Promoting edges as one round, and for which graphs it is safe. */
module FoldRounds {
  import opened Bpf
  import opened Blocks
  import opened Reach
  import opened Levels
  import opened Dominators
  import opened InEdges
  import opened Values
  import opened Numbering
  import opened Walks
  import opened Rounds
  import Backpatch
  import Crossings
  import EdgeFold
  import GeneratorForm
  import Liveness
  import ValuePass
  import ValueSound

  // What one promotion of edges worked with.
  datatype FoldLog = FoldLog(s: ValuePass.Snapshot, inEdges: seq<seq<EdgeId>>, inUse: seq<set<Atom>>, fx: EdgeFold.Facts, reach: set<Id>)

  // The facts that a promotion of the edges of g works with.
  ghost predicate FoldFacts(g: Graph, root: Id, lv: Blocks.Levels, log: FoldLog) {
    && Leveled(g, lv) && root < |g|
    && ValueSound.Finished(g, log.s, log.inEdges, false, root, log.reach) && Liveness.LiveSets(g, log.reach, log.inUse, log.fx.outUse)
    && log.fx.nm == EdgeFold.Numbers(log.s.val, log.s.oval, log.s.den) && EdgeFold.Prepared(g, log.fx, root, log.reach)
    && forall e, f :: 0 <= e < 2 * |g| && Tail(g, e) in log.reach && 0 <= f < 2 * |g| ==> (f in log.fx.edom[e] <==> EdgeDominates(g, root, f, e))
  }

  /** A promotion of the edges of g, and what it left: every edge where it has to lead, and nothing else changed. */
  ghost predicate FoldOf(g: Graph, root: Id, lv: Blocks.Levels, g2: Graph, log: FoldLog) {
    && FoldFacts(g, root, lv, log)
    && EdgeFold.Kept(g, g2, log.fx.nm, log.reach, log.fx.level, root)
    && EdgeFold.AllPromoted(g, g2, log.fx, log.reach) && EdgeFold.Waiting(g, g2, log.reach)
  }

  /** Level the graph, find edge dominators, live atoms and value numbers. */
  method FindFacts(g: Graph, root: Id, ghost lv: Blocks.Levels) returns (fx: EdgeFold.Facts, ghost log: FoldLog)
    requires Leveled(g, lv) && root < |g|
    ensures FoldFacts(g, root, lv, log) && log.fx == fx
  {
    hide IsReach, Leveling, Entering, EdgeDominates, Liveness.LiveSets, ValuePass.Progress, EdgeFold.Prepared, Chained, Mapped, Denoted;
    var leveler := new Leveler(g);
    ghost var reach := leveler.FindLevels(root, lv);
    var level, levels := leveler.level, leveler.levels;
    var doms := new DominatorSets(g);
    doms.FindEdom(root, level, levels, lv, reach);
    var ud := new Liveness.UseDef(g);
    ud.FindUd(root, level, levels, reach);
    var lists := new EdgeLists(g);
    lists.FindInedges(root, level, levels, reach);
    var room := MaxValues(g);
    var table := new ValueTable(room);
    var pass := new ValuePass.Pass(g, table);
    var ok, at := pass.OptBlks(root, level, levels, lists.inEdges, false, reach);
    fx := EdgeFold.Facts(EdgeFold.Numbers(pass.val, pass.oval, table.den), ud.outUse, doms.edom, level, levels);
    log := FoldLog(pass.Snap(), lists.inEdges, ud.inUse, fx, reach);
    PreparedHere(g, pass.Snap(), lists.inEdges, fx, root, reach, table.hashtbl, table.keys);
  }

  /** Find those facts, and promote edges: the part of one optimizer round that moves edges past decided branches. The result is
      kept where no block on the way from the root sets what another one reads. */
  method FoldRound(g: Graph, root: Id, ghost lv: Blocks.Levels) returns (g2: Graph, ghost log: FoldLog)
    requires Leveled(g, lv) && root < |g|
    ensures FoldOf(g, root, lv, g2, log)
    ensures Crossings.CrossesOnly(g, root, {}, false) ==> KeepsResults(g, g2, root, lv)
    ensures Backpatch.OwnFrom(g, 0) ==> KeepsResults(g, g2, root, lv)
    ensures FormKept(g, g2)
  {
    hide FormKept, Backpatch.OwnFrom, EdgeFold.Kept, ValueSound.Finished, Liveness.LiveSets, EdgeDominates,
         EdgeFold.Prepared, EdgeFold.AllPromoted, EdgeFold.Waiting, Crossings.CrossesOnly, KeepsResults;
    var fx;
    fx, log := FindFacts(g, root, lv);
    var folder := new EdgeFold.EdgeFolder(g, fx);
    folder.FoldEdges(root, log.reach);
    g2 := folder.node;
    FoldForm(g, g2, root, lv, log);
    if Backpatch.OwnFrom(g, 0) { OwnCrossesNothing(g, root); }
    if Crossings.CrossesOnly(g, root, {}, false) { FoldKeeps(g, g2, root, lv, log); }
  }

  lemma {:induction false} FoldForm(g: Graph, g2: Graph, root: Id, lv: Blocks.Levels, log: FoldLog)
    requires FoldOf(g, root, lv, g2, log)
    ensures SameBlocks(g, g2) && Leveled(g2, lv) && root < |g| == |g2|
    ensures FormKept(g, g2)
  {
    hide FoldFacts, Descends, EdgeFold.KeptAt, EdgeFold.AllPromoted, EdgeFold.Waiting, FormKept, Leveled;
    FactsLeveled(g, root, lv, log);
    SameForm(g, g2);
  }

  lemma {:induction false} FactsLeveled(g: Graph, root: Id, lv: Blocks.Levels, log: FoldLog)
    requires FoldFacts(g, root, lv, log)
    ensures Leveled(g, lv) && root < |g| && Closed(g)
  {
  }

  lemma {:induction false} OwnCrossesNothing(g: Graph, root: Id)
    requires Backpatch.OwnFrom(g, 0) && Closed(g) && root < |g|
    ensures Crossings.CrossesOnly(g, root, {}, false)
  {
    hide Liveness.LiveIn, Leads, Crossings.SetBetween;
    forall b | 0 <= b < |g| ensures Liveness.NodeReads(g[b]) == {} {
      assert Liveness.SelfContained(g[b]);
    }
  }

  /** Where nothing crosses blocks that the root has not set, and blocks on the way left alone, promotion is safe. */
  lemma {:induction false} FoldKeeps(g: Graph, g2: Graph, root: Id, lv: Blocks.Levels, log: FoldLog)
    requires FoldOf(g, root, lv, g2, log) && Crossings.CrossesOnly(g, root, {}, false)
    ensures KeepsResults(g, g2, root, lv)
  {
    hide Crossings.CrossesOnly, GeneratorForm.Generated, GeneratorForm.AllKnown, GeneratorForm.Carried, ValuePass.Progress, Entering, IsReach,
         EdgeFold.KeptAt, EdgeFold.AllPromoted, EdgeFold.Waiting, EdgeDominates, Leveling, ConstsDistinct, Liveness.LiveSets, Run;
    var s, inEdges, reach, fx := log.s, log.inEdges, log.reach, log.fx;
    FoldForm(g, g2, root, lv, log);
    Crossings.NoneCrosses(g, root, reach, false);
    Crossings.NoneCrossesKnown(g, lv, s, inEdges, root, reach);
    var kept := Crossings.FromRoot(g, root);
    GeneratorForm.GeneratedRoot(g, root, reach, kept);
    EdgeFold.PreparedUnder(g, fx, root, reach);
    EdgeFold.PreparedDescends(g, fx, root, reach);
    RootTop(g, fx, root, reach);
    GeneratorForm.PromotedCarries(g, g2, fx, root, reach, kept);
    forall st: State, p: Packet, fuel: nat | lv[root] < fuel
      ensures Run(g, root, st, p, fuel) == Fault || Run(g2, root, st, p, fuel) == Run(g, root, st, p, fuel)
    {
      var enough := fuel + fx.level[root] + 1;
      GeneratorForm.FoldedRun(g, g2, lv, s, inEdges, root, reach, kept, fx.level, st, p, enough);
      RunTerminates(g, lv, root, st, p, fuel);
      RunTerminates(g, lv, root, st, p, enough);
      RunTerminates(g2, lv, root, st, p, fuel);
      RunTerminates(g2, lv, root, st, p, enough);
    }
  }

  lemma {:induction false} RootTop(g: Graph, fx: EdgeFold.Facts, root: Id, reach: set<Id>)
    requires EdgeFold.Prepared(g, fx, root, reach)
    ensures |fx.level| == |g| && root < |g| && forall b :: b in reach ==> b < |g| && fx.level[b] <= fx.level[root]
  {
    hide EdgeDominates, IsReach;
    AboveEnds(g, root, reach, fx.level, fx.levels);
    forall b | b in reach ensures fx.level[b] <= fx.level[root] {
      assert b !in Above(reach, fx.level, fx.levels, fx.level[root], 0);
    }
  }

  /** Promoting edges keeps the result of every graph in which the blocks between the root and a reader set no atoms but those of P,
      and that, if not unset, reads nothing unset. */
  ghost predicate FoldSafeFor(P: set<Atom>, unset: bool) {
    forall g: Graph, root: Id, lv: Blocks.Levels, g2: Graph, log: FoldLog ::
      FoldOf(g, root, lv, g2, log) && Crossings.CrossesOnly(g, root, P, unset) ==> KeepsResults(g, g2, root, lv)
  }

  /** That is so exactly when P is empty and nothing unset may be read: a promotion over a graph that lets an atom of P cross, or
      over one that compares unset words, shows that otherwise it is not. */
  method FoldExact(P: set<Atom>, unset: bool)
    ensures FoldSafeFor(P, unset) <==> P == {} && !unset
  {
    hide Run, FoldOf, Crossings.CrossesOnly, KeepsResults;
    ghost var st: State := seq(N_ATOMS, _ => 0);
    ghost var log;
    var g2;
    if unset {
      st := st[0 := 1];
      g2, log := FoldRoundUnset(st, Packet([], 0));
      Crossings.UnsetForm(P);
      FoldChanged(Crossings.Unset(), g2, [2, 1, 0, 0], st, Packet([], 0), 3);
    } else if P == {} {
      forall g: Graph, root: Id, lv: Blocks.Levels, g2: Graph, log: FoldLog | FoldOf(g, root, lv, g2, log) && Crossings.CrossesOnly(g, root, P, unset)
        ensures KeepsResults(g, g2, root, lv)
      {
        FoldKeeps(g, g2, root, lv, log);
      }
    } else {
      var a :| a in P;
      g2, log := FoldRoundLoses(a, st, Packet([], 0));
      Crossings.CrossingForm(a, P);
      FoldChanged(Crossings.Crossing(a), g2, [3, 2, 1, 0, 0], st, Packet([], 0), 4);
    }
  }

  lemma {:induction false} FoldChanged(g: Graph, g2: Graph, lv: Blocks.Levels, st: State, p: Packet, fuel: nat)
    requires Leveled(g, lv) && Leveled(g2, lv) && 0 < |g| && 0 < |g2| && lv[0] < fuel
    requires Run(g, 0, st, p, fuel) != Fault && Run(g2, 0, st, p, fuel) != Run(g, 0, st, p, fuel)
    ensures !KeepsResults(g, g2, 0, lv)
  {
    hide Run;
  }

  /** For each atom here is a graph in which one block sets it and a later one reads it, and the round changes its result, for
      every state and packet. */
  method FoldRoundLoses(a: Atom, ghost st: State, ghost p: Packet) returns (g2: Graph, ghost log: FoldLog)
    ensures Leveled(Crossings.Crossing(a), [3, 2, 1, 0, 0]) && Leveled(g2, [3, 2, 1, 0, 0])
    ensures FoldOf(Crossings.Crossing(a), 0, [3, 2, 1, 0, 0], g2, log)
    ensures Run(Crossings.Crossing(a), 0, st, p, 4) == Return(1)
    ensures Run(g2, 0, st, p, 4) == Return(0)
  {
    hide Run, EdgeFold.Kept, EdgeFold.AllPromoted, EdgeFold.Waiting, Liveness.LiveSets, ValueSound.Finished, EdgeFold.Prepared, EdgeDominates, KeepsResults,
         Crossings.CrossesOnly, Backpatch.OwnFrom;
    var g := Crossings.Crossing(a);
    Crossings.CrossingLevels(a);
    g2, log := FoldRound(g, 0, [3, 2, 1, 0, 0]);
    FoldForm(g, g2, 0, [3, 2, 1, 0, 0], log);
    Crossings.CrossingLost(a, log.s, log.inEdges, log.inUse, log.fx, log.reach, g2, st, p);
  }

  /** The same over a graph of two blocks that compare words nobody sets. */
  method FoldRoundUnset(ghost st: State, ghost p: Packet) returns (g2: Graph, ghost log: FoldLog)
    requires st[0] == 1 && st[1] == 0
    ensures Leveled(Crossings.Unset(), [2, 1, 0, 0]) && Leveled(g2, [2, 1, 0, 0])
    ensures FoldOf(Crossings.Unset(), 0, [2, 1, 0, 0], g2, log)
    ensures Run(Crossings.Unset(), 0, st, p, 3) == Return(0)
    ensures Run(g2, 0, st, p, 3) == Return(1)
  {
    hide Run, EdgeFold.Kept, EdgeFold.AllPromoted, EdgeFold.Waiting, Liveness.LiveSets, ValueSound.Finished, EdgeFold.Prepared, EdgeDominates, KeepsResults,
         Crossings.CrossesOnly, Backpatch.OwnFrom;
    var g := Crossings.Unset();
    Crossings.UnsetForm({});
    g2, log := FoldRound(g, 0, [2, 1, 0, 0]);
    FoldForm(g, g2, 0, [2, 1, 0, 0], log);
    Crossings.UnsetLost(log.s, log.inEdges, log.inUse, log.fx, log.reach, g2, st, p);
  }

  lemma {:induction false} PreparedHere(g: Graph, s: ValuePass.Snapshot, inEdges: seq<seq<EdgeId>>, fx: EdgeFold.Facts, root: Id, reach: set<Id>,
                                        hashtbl: seq<seq<Valnode>>, keys: seq<Key>)
    requires IsReach(g, root, reach) && Leveling(g, reach, fx.level, fx.levels) && fx.nm == EdgeFold.Numbers(s.val, s.oval, s.den)
    requires ValuePass.Progress(g, s, inEdges, false, reach) && |fx.outUse| == |g| && |fx.edom| == 2 * |g|
    requires Chained(hashtbl, keys) && Denoted(s.den, keys)
    requires forall e, f :: 0 <= e < 2 * |g| && Tail(g, e) in reach && 0 <= f < 2 * |g| ==> (f in fx.edom[e] <==> EdgeDominates(g, root, f, e))
    requires forall e, f {:trigger f in fx.edom[e]} :: 0 <= e < 2 * |g| && f in fx.edom[e] ==> f < 2 * |g|
    ensures EdgeFold.Prepared(g, fx, root, reach)
  {
    hide IsReach, Leveling, EdgeDominates, ValuePass.DoneAt, Chained, Denoted;
    TableConsts(hashtbl, keys, s.den);
  }
}
