/** Dominators of blocks and of edges, computed level by level from the root down. */
module Dominators {
  import opened Blocks
  import opened Reach
  import opened Levels
  import opened Dominance

  // The reachable blocks visited before the j-th one of level i, top level first.
  function Above(reach: set<Id>, level: seq<nat>, levels: seq<seq<Id>>, i: int, j: nat): set<Id>
    requires forall b :: b in reach ==> b < |level|
    requires i < |levels| && (0 <= i ==> j <= |levels[i]|)
  {
    set b | b in reach && (i < level[b] || (0 <= i && b in levels[i][..j]))
  }

  /** Predecessors are visited before the block itself. */
  lemma {:induction false} AboveNext(g: Graph, reach: set<Id>, level: seq<nat>, levels: seq<seq<Id>>, i: nat, j: nat)
    requires Leveling(g, reach, level, levels) && i < |g| && j < |levels[i]|
    ensures var b := levels[i][j];
      && Above(reach, level, levels, i, j) <= reach
      && b in reach && b < |g| && b !in Above(reach, level, levels, i, j) && b !in SuccSet(g, b)
      && Above(reach, level, levels, i, j + 1) == Above(reach, level, levels, i, j) + {b}
      && forall m :: m in reach && b in SuccSet(g, m) ==> m in Above(reach, level, levels, i, j)
  {
    var b := levels[i][j];
    assert OnLevel(levels, level, reach, i, b);
    assert levels[i][..j+1] == levels[i][..j] + [b];
    forall m | m in reach && b in SuccSet(g, m) ensures i < level[m] {
      LevelDescends(g, reach, level, levels, m, b);
    }
  }

  lemma {:induction false} AboveDrop(g: Graph, reach: set<Id>, level: seq<nat>, levels: seq<seq<Id>>, i: nat)
    requires Leveling(g, reach, level, levels) && i < |g|
    ensures Above(reach, level, levels, i, |levels[i]|) == Above(reach, level, levels, i - 1, 0)
  {
    forall b | b in reach ensures b in levels[i] <==> level[b] == i {
      assert OnLevel(levels, level, reach, i, b);
    }
    assert levels[i][..|levels[i]|] == levels[i];
  }

  lemma {:induction false} AboveEnds(g: Graph, root: Id, reach: set<Id>, level: seq<nat>, levels: seq<seq<Id>>)
    requires Leveling(g, reach, level, levels) && IsReach(g, root, reach)
    ensures root < |g| == |level| == |levels| && level[root] < |levels| && forall b :: b in reach ==> b < |g|
    ensures Above(reach, level, levels, level[root], 0) == {}
    ensures Above(reach, level, levels, -1, 0) == reach
  {
    var T := set b | b in reach && level[b] <= level[root];
    forall b | b in T ensures SuccSet(g, b) <= T {
      forall c | c in SuccSet(g, b) ensures c in T {
        LevelDescends(g, reach, level, levels, b, c);
      }
    }
    assert ClosedUnder(g, T);
  }

  function BlockPreds(g: Graph): (r: Preds)
    ensures |r| == |g|
    ensures forall c, m :: 0 <= c < |g| ==> (m in r[c] <==> 0 <= m < |g| && c in SuccSet(g, m))
  {
    seq(|g|, c => set m | 0 <= m < |g| && c in SuccSet(g, m))
  }

  // Edge e < |g| is the true edge of block e; the others are the false edges.
  type EdgeId = nat

  function EdgeOf(g: Graph, b: Id, side: bool): EdgeId { if side then b else |g| + b }

  function Tail(g: Graph, e: EdgeId): Id
    requires e < 2 * |g|
  {
    if e < |g| then e else e - |g|
  }

  function Head(g: Graph, e: EdgeId): Ref
    requires e < 2 * |g|
  {
    g[Tail(g, e)].Succ(e < |g|)
  }

  function EdgePreds(g: Graph): (r: Preds)
    ensures |r| == 2 * |g|
    ensures forall e, f :: 0 <= e < 2 * |g| ==> (f in r[e] <==> 0 <= f < 2 * |g| && Head(g, f) == Tail(g, e))
  {
    seq(2 * |g|, e requires 0 <= e < 2 * |g| => set f | 0 <= f < 2 * |g| && Head(g, f) == Tail(g, e))
  }

  function EdgesOf(g: Graph, S: set<Id>): (r: set<EdgeId>)
    ensures forall e :: e in r <==> 0 <= e < 2 * |g| && Tail(g, e) in S
  {
    set e | 0 <= e < 2 * |g| && Tail(g, e) in S
  }

  /** x lies on every path from the root to b. */
  ghost predicate BlockDominates(g: Graph, root: Id, x: Id, b: Id) {
    Dominates(BlockPreds(g), {root}, x, b)
  }

  /** Edge f is taken on every path that starts at the root and ends with edge e. */
  ghost predicate EdgeDominates(g: Graph, root: Id, f: EdgeId, e: EdgeId) {
    Dominates(EdgePreds(g), {EdgeOf(g, root, true), EdgeOf(g, root, false)}, f, e)
  }

  lemma {:induction false} RootOnTop(g: Graph, lv: Blocks.Levels, root: Id, reach: set<Id>, b: Id)
    requires Leveled(g, lv) && IsReach(g, root, reach) && b in reach
    ensures b < |g| && lv[b] <= lv[root]
  {
    if b != root { ReachBelow(g, lv, root, reach, b); }
  }

  lemma {:induction false} BlockSweepExact(g: Graph, lv: Blocks.Levels, root: Id, reach: set<Id>, dom: seq<set<nat>>, b: Id, x: Id)
    requires Leveled(g, lv) && IsReach(g, root, reach) && Sweep(BlockPreds(g), {root}, reach, reach, dom)
    requires b in reach && x < |g|
    ensures x in dom[b] <==> BlockDominates(g, root, x, b)
  {
    forall b | b in reach ensures lv[b] <= lv[root] {
      RootOnTop(g, lv, root, reach, b);
    }
    SweepExact(BlockPreds(g), {root}, reach, dom, lv, lv[root], b, x);
  }

  function EdgeRank(g: Graph, lv: Blocks.Levels): (r: seq<nat>)
    requires |g| == |lv|
    ensures |r| == 2 * |g| && forall e :: 0 <= e < |r| ==> r[e] == lv[Tail(g, e)]
  {
    seq(2 * |g|, e requires 0 <= e < 2 * |g| => lv[Tail(g, e)])
  }

  lemma {:induction false} EdgeRanked(g: Graph, lv: Blocks.Levels)
    requires Leveled(g, lv)
    ensures Ranked(EdgePreds(g), EdgeRank(g, lv))
  {
  }

  lemma {:induction false} EdgeSweepBounded(g: Graph, root: Id, reach: set<EdgeId>, edom: seq<set<nat>>)
    requires Sweep(EdgePreds(g), {EdgeOf(g, root, true), EdgeOf(g, root, false)}, reach, reach, edom)
    ensures |edom| == 2 * |g| && forall e, f {:trigger f in edom[e]} :: 0 <= e < 2 * |g| && f in edom[e] ==> f < 2 * |g|
  {
  }

  lemma {:induction false} EdgeSweepExact(g: Graph, lv: Blocks.Levels, root: Id, reach: set<Id>, edom: seq<set<nat>>, e: EdgeId, f: EdgeId)
    requires Leveled(g, lv) && IsReach(g, root, reach)
    requires Sweep(EdgePreds(g), {EdgeOf(g, root, true), EdgeOf(g, root, false)}, EdgesOf(g, reach), EdgesOf(g, reach), edom)
    requires e < 2 * |g| && Tail(g, e) in reach && f < 2 * |g|
    ensures f in edom[e] <==> EdgeDominates(g, root, f, e)
  {
    hide Sweep;
    forall m | m in EdgesOf(g, reach) ensures EdgeRank(g, lv)[m] <= lv[root] {
      RootOnTop(g, lv, root, reach, Tail(g, m));
    }
    EdgeRanked(g, lv);
    SweepExact(EdgePreds(g), {EdgeOf(g, root, true), EdgeOf(g, root, false)}, EdgesOf(g, reach), edom, EdgeRank(g, lv), lv[root], e, f);
  }

  class DominatorSets {
    const node: Graph
    var dom: seq<set<Id>>
    var edom: seq<set<EdgeId>>

    ghost predicate Valid()
      reads this
    {
      Closed(node) && |dom| == |node| && |edom| == 2 * |node|
    }

    constructor (g: Graph)
      requires Closed(g)
      ensures Valid() && node == g
    {
      node, dom, edom := g, seq(|g|, _ => {}), seq(2 * |g|, _ => {});
    }

    /** Put b in its own set and restrict the sets of its successors. */
    method VisitBlock(b: Id)
      requires Valid() && b < |node| && b !in SuccSet(node, b)
      modifies `dom
      ensures Valid() && Visited(BlockPreds(node), old(dom), dom, b)
    {
      dom := dom[b := dom[b] + {b}];
      if node[b].s.Jmp? {
        dom := dom[node[b].jt := dom[node[b].jt] * dom[b]];
        dom := dom[node[b].jf := dom[node[b].jf] * dom[b]];
      }
    }

    /** Afterwards x is in the set of a reachable block b exactly when every root path to b goes through x. */
    method FindDom(root: Id, level: seq<nat>, levels: seq<seq<Id>>, ghost lv: Blocks.Levels, ghost reach: set<Id>)
      requires Valid() && Leveled(node, lv) && IsReach(node, root, reach) && Leveling(node, reach, level, levels)
      modifies `dom
      ensures Valid()
      ensures forall b, x :: b in reach && 0 <= x < |node| ==> (x in dom[b] <==> BlockDominates(node, root, x, b))
    {
      hide Sweep, Leveling, IsReach, Above;
      AboveEnds(node, root, reach, level, levels);
      dom := seq(|node|, _ => All(|node|));
      dom := dom[root := {}];
      ghost var pred := BlockPreds(node);
      SweepStart(pred, {root}, reach, dom);
      var i := level[root];
      while i >= 0
        invariant -1 <= i < |levels| == |node| && Valid()
        invariant Sweep(pred, {root}, reach, Above(reach, level, levels, i, 0), dom)
      {
        var j := 0;
        while j < |levels[i]|
          invariant 0 <= j <= |levels[i]| && Valid()
          invariant Sweep(pred, {root}, reach, Above(reach, level, levels, i, j), dom)
        {
          AboveNext(node, reach, level, levels, i, j);
          ghost var was := dom;
          VisitBlock(levels[i][j]);
          SweepStep(pred, {root}, reach, Above(reach, level, levels, i, j), was, dom, levels[i][j]);
          j := j + 1;
        }
        AboveDrop(node, reach, level, levels, i);
        i := i - 1;
      }
      forall b, x | b in reach && 0 <= x < |node| ensures x in dom[b] <==> BlockDominates(node, root, x, b) {
        BlockSweepExact(node, lv, root, reach, dom, b, x);
      }
    }

    /** The same for one edge, whose successors are the edges of the block it leads to. */
    method PropEdom(e: EdgeId)
      requires Valid() && e < 2 * |node| && Head(node, e) != Tail(node, e)
      modifies `edom
      ensures Valid() && Visited(EdgePreds(node), old(edom), edom, e)
    {
      edom := edom[e := edom[e] + {e}];
      var succ := Head(node, e);
      if succ != NIL {
        var et, ef := EdgeOf(node, succ, true), EdgeOf(node, succ, false);
        edom := edom[et := edom[et] * edom[e]];
        edom := edom[ef := edom[ef] * edom[e]];
      }
    }

    /** All edges in every set, but none in those of the root's two edges. */
    method InitEdom(root: Id, ghost pred: Preds, ghost entry: set<EdgeId>, ghost reach: set<EdgeId>)
      requires Valid() && root < |node| && |pred| == 2 * |node|
      requires entry == {EdgeOf(node, root, true), EdgeOf(node, root, false)}
      modifies `edom
      ensures Valid() && Sweep(pred, entry, reach, {}, edom)
    {
      edom := seq(2 * |node|, _ => All(2 * |node|));
      edom := edom[EdgeOf(node, root, true) := {}];
      edom := edom[EdgeOf(node, root, false) := {}];
      SweepStart(pred, entry, reach, edom);
    }

    /** Visit both edges of b, whose predecessor edges have all been visited. */
    method VisitEdges(b: Id, ghost pred: Preds, ghost entry: set<EdgeId>, ghost reach: set<EdgeId>, ghost done: set<EdgeId>)
      requires Valid() && b < |node| && pred == EdgePreds(node) && Sweep(pred, entry, reach, done, edom)
      requires Ready(node, reach, done, b, true) && Ready(node, reach, done, b, false)
      modifies `edom
      ensures Valid() && Sweep(pred, entry, reach, done + {EdgeOf(node, b, true)} + {EdgeOf(node, b, false)}, edom)
    {
      hide Sweep, Visited;
      ghost var was := edom;
      PropEdom(EdgeOf(node, b, true));
      SweepStep(pred, entry, reach, done, was, edom, EdgeOf(node, b, true));
      was := edom;
      PropEdom(EdgeOf(node, b, false));
      SweepStep(pred, entry, reach, done + {EdgeOf(node, b, true)}, was, edom, EdgeOf(node, b, false));
    }

    /** Afterwards f is in the set of a reachable edge e exactly when every root path along e takes f. */
    method FindEdom(root: Id, level: seq<nat>, levels: seq<seq<Id>>, ghost lv: Blocks.Levels, ghost reach: set<Id>)
      requires Valid() && Leveled(node, lv) && IsReach(node, root, reach) && Leveling(node, reach, level, levels)
      modifies `edom
      ensures Valid()
      ensures forall e, f :: 0 <= e < 2 * |node| && Tail(node, e) in reach && 0 <= f < 2 * |node| ==>
        (f in edom[e] <==> EdgeDominates(node, root, f, e))
      ensures forall e, f {:trigger f in edom[e]} :: 0 <= e < 2 * |node| && f in edom[e] ==> f < 2 * |node|
    {
      hide Sweep, Leveling, IsReach, Above, Ready, Dominates;
      AboveEnds(node, root, reach, level, levels);
      ghost var entry := {EdgeOf(node, root, true), EdgeOf(node, root, false)};
      ghost var pred := EdgePreds(node);
      InitEdom(root, pred, entry, EdgesOf(node, reach));
      assert EdgesOf(node, {}) == {};
      var i := level[root];
      while i >= 0
        invariant -1 <= i < |levels| == |node| && Valid()
        invariant Sweep(pred, entry, EdgesOf(node, reach), EdgesOf(node, Above(reach, level, levels, i, 0)), edom)
      {
        var j := 0;
        while j < |levels[i]|
          invariant 0 <= j <= |levels[i]| && Valid()
          invariant Sweep(pred, entry, EdgesOf(node, reach), EdgesOf(node, Above(reach, level, levels, i, j)), edom)
        {
          AboveNext(node, reach, level, levels, i, j);
          var b := levels[i][j];
          ghost var done := Above(reach, level, levels, i, j);
          EdgesNext(node, reach, done, b);
          VisitEdges(b, pred, entry, EdgesOf(node, reach), EdgesOf(node, done));
          j := j + 1;
        }
        AboveDrop(node, reach, level, levels, i);
        i := i - 1;
      }
      EdgeSweepBounded(node, root, EdgesOf(node, reach), edom);
      forall e, f | 0 <= e < 2 * |node| && Tail(node, e) in reach && 0 <= f < 2 * |node|
        ensures f in edom[e] <==> EdgeDominates(node, root, f, e)
      {
        EdgeSweepExact(node, lv, root, reach, edom, e, f);
      }
    }
  }

  /** An edge of b not visited yet, whose predecessors have been. */
  predicate Ready(g: Graph, reach: set<EdgeId>, done: set<EdgeId>, b: Id, side: bool)
    requires b < |g|
  {
    var e := EdgeOf(g, b, side);
    Head(g, e) != b && e in reach && e !in done && EdgePreds(g)[e] * reach <= done
  }

  /** Visiting the two edges of b. */
  lemma {:induction false} EdgesNext(g: Graph, reach: set<Id>, done: set<Id>, b: Id)
    requires Closed(g) && b < |g| && b in reach && b !in done && b !in SuccSet(g, b) && done <= reach
    requires forall m :: m in reach ==> m < |g|
    requires forall m :: m in reach && b in SuccSet(g, m) ==> m in done
    ensures Ready(g, EdgesOf(g, reach), EdgesOf(g, done), b, true) && Ready(g, EdgesOf(g, reach), EdgesOf(g, done), b, false)
    ensures EdgesOf(g, done + {b}) == EdgesOf(g, done) + {EdgeOf(g, b, true)} + {EdgeOf(g, b, false)}
  {
    forall f | 0 <= f < 2 * |g| && Head(g, f) == b ensures b in SuccSet(g, Tail(g, f)) {
    }
  }
}
