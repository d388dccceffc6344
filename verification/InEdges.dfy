/** The edges that lead to each block. */
module InEdges {
  import opened Blocks
  import opened Layout
  import opened Reach
  import opened Levels
  import opened Dominators

  predicate EntersAt(g: Graph, done: set<Id>, inEdges: seq<seq<EdgeId>>, c: Id, e: EdgeId)
    requires |inEdges| == |g| && c < |g| && e < 2 * |g|
  {
    e in inEdges[c] <==> Tail(g, e) in done && Head(g, e) == c
  }

  /** The lists hold, once each, exactly the edges that leave blocks of done. */
  predicate Entering(g: Graph, done: set<Id>, inEdges: seq<seq<EdgeId>>) {
    && |inEdges| == |g|
    && (forall c, i {:trigger inEdges[c][i]} :: 0 <= c < |g| && 0 <= i < |inEdges[c]| ==> inEdges[c][i] < 2 * |g|)
    && (forall c {:trigger inEdges[c]} :: 0 <= c < |g| ==> NoDup(inEdges[c]))
    && forall c, e {:trigger EntersAt(g, done, inEdges, c, e)} :: 0 <= c < |g| && 0 <= e < 2 * |g| ==> EntersAt(g, done, inEdges, c, e)
  }

  // One edge put in front of the list of the block it leads to.
  function Link(g: Graph, inEdges: seq<seq<EdgeId>>, e: EdgeId): seq<seq<EdgeId>>
    requires |inEdges| == |g| && e < 2 * |g| && 0 <= Head(g, e) < |g|
  {
    inEdges[Head(g, e) := [e] + inEdges[Head(g, e)]]
  }

  lemma {:induction false} LinkedBlock(g: Graph, done: set<Id>, inEdges: seq<seq<EdgeId>>, b: Id)
    requires Closed(g) && Entering(g, done, inEdges) && b < |g| && b !in done && g[b].s.Jmp?
    ensures Entering(g, done + {b}, Link(g, Link(g, inEdges, EdgeOf(g, b, true)), EdgeOf(g, b, false)))
  {
    var t, f := EdgeOf(g, b, true), EdgeOf(g, b, false);
    var one := Link(g, inEdges, t);
    var two := Link(g, one, f);
    assert t !in inEdges[Head(g, t)] by { assert EntersAt(g, done, inEdges, Head(g, t), t); }
    assert f !in inEdges[Head(g, f)] by { assert EntersAt(g, done, inEdges, Head(g, f), f); }
    forall c, e | 0 <= c < |g| && 0 <= e < 2 * |g| ensures EntersAt(g, done + {b}, two, c, e) {
      assert EntersAt(g, done, inEdges, c, e);
    }
  }

  class EdgeLists {
    const node: Graph
    var inEdges: seq<seq<EdgeId>>

    ghost predicate Valid()
      reads this
    {
      Closed(node) && |inEdges| == |node|
    }

    constructor (g: Graph)
      requires Closed(g)
      ensures Valid() && node == g
    {
      node, inEdges := g, seq(|g|, _ => []);
    }

    method LinkInedge(e: EdgeId)
      requires Valid() && e < 2 * |node| && node[Tail(node, e)].s.Jmp?
      modifies `inEdges
      ensures Valid() && inEdges == Link(node, old(inEdges), e)
    {
      var child := Head(node, e);
      inEdges := inEdges[child := [e] + inEdges[child]];
    }

    /** List the edges that enter each block and leave a reachable one. */
    method FindInedges(root: Id, level: seq<nat>, levels: seq<seq<Id>>, ghost reach: set<Id>)
      requires Valid() && IsReach(node, root, reach) && Leveling(node, reach, level, levels)
      modifies `inEdges
      ensures Valid() && Entering(node, reach, inEdges)
    {
      hide Leveling, IsReach, Above, Entering, Link;
      AboveEnds(node, root, reach, level, levels);
      inEdges := seq(|node|, _ => []);
      NoneEntering(node);
      var i := level[root];
      while i > 0
        invariant 0 <= i < |levels| == |node| && Valid()
        invariant Entering(node, Above(reach, level, levels, i, 0), inEdges)
      {
        var j := 0;
        while j < |levels[i]|
          invariant 0 <= j <= |levels[i]| && Valid()
          invariant Entering(node, Above(reach, level, levels, i, j), inEdges)
        {
          var b := levels[i][j];
          AboveNext(node, reach, level, levels, i, j);
          BranchAbove(node, reach, level, levels, i, j);
          LinkedBlock(node, Above(reach, level, levels, i, j), inEdges, b);
          LinkInedge(EdgeOf(node, b, true));
          LinkInedge(EdgeOf(node, b, false));
          j := j + 1;
        }
        AboveDrop(node, reach, level, levels, i);
        i := i - 1;
      }
      LeavesLast(node, reach, level, levels, inEdges);
    }
  }

  lemma {:induction false} NoneEntering(g: Graph)
    ensures Entering(g, {}, seq(|g|, _ => []))
  {
  }

  /** Blocks above level 0 end in a branch. */
  lemma {:induction false} BranchAbove(g: Graph, reach: set<Id>, level: seq<nat>, levels: seq<seq<Id>>, i: nat, j: nat)
    requires Leveling(g, reach, level, levels) && 0 < i < |g| && j < |levels[i]|
    ensures levels[i][j] < |g| && g[levels[i][j]].s.Jmp?
  {
    assert OnLevel(levels, level, reach, i, levels[i][j]);
    assert LevelAt(g, level, levels[i][j]);
  }

  /** The blocks of level 0 have no edges to add. */
  lemma {:induction false} LeavesLast(g: Graph, reach: set<Id>, level: seq<nat>, levels: seq<seq<Id>>, inEdges: seq<seq<EdgeId>>)
    requires Leveling(g, reach, level, levels) && |g| > 0
    requires Entering(g, Above(reach, level, levels, 0, 0), inEdges)
    ensures Entering(g, reach, inEdges)
  {
    forall c, e | 0 <= c < |g| && 0 <= e < 2 * |g| ensures EntersAt(g, reach, inEdges, c, e) {
      assert EntersAt(g, Above(reach, level, levels, 0, 0), inEdges, c, e);
      if Tail(g, e) in reach { assert LevelAt(g, level, Tail(g, e)); }
    }
  }
}
