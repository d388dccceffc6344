/** Levelling the graph: each block's longest distance to a leaf, and the blocks of each level. */
module Levels {
  import opened Blocks
  import opened Layout
  import opened Reach

  /** A block is one level above the deeper of its successors. */
  predicate LevelAt(g: Graph, level: seq<nat>, b: Id)
    requires Closed(g) && b < |g| == |level|
  {
    level[b] == if g[b].s.Jmp? then 1 + (if level[g[b].jt] < level[g[b].jf] then level[g[b].jf] else level[g[b].jt]) else 0
  }

  predicate OnLevel(levels: seq<seq<Id>>, level: seq<nat>, S: set<Id>, l: nat, b: Id)
    requires l < |levels| && b < |level|
  {
    b in levels[l] <==> b in S && level[b] == l
  }

  /** The blocks of S are levelled, and listed once each, under their level. */
  predicate Leveling(g: Graph, S: set<Id>, level: seq<nat>, levels: seq<seq<Id>>) {
    && Closed(g) && |g| == |level| == |levels|
    && (forall b :: b in S ==> b < |g| && LevelAt(g, level, b) && level[b] < |g|)
    && (forall l, b {:trigger OnLevel(levels, level, S, l, b)} :: 0 <= l < |g| && 0 <= b < |g| ==> OnLevel(levels, level, S, l, b))
    && forall l {:trigger levels[l]} :: 0 <= l < |g| ==> NoDup(levels[l]) && Within(g, levels[l])
  }

  // The k-th block finished has level at most k.
  predicate Packed(level: seq<nat>, ord: seq<Id>) {
    forall i {:trigger ord[i]} :: 0 <= i < |ord| ==> ord[i] < |level| && level[ord[i]] <= i
  }

  lemma {:induction false} Pigeonhole(xs: seq<Id>, n: nat)
    requires NoDup(xs) && forall i :: 0 <= i < |xs| ==> xs[i] < n
    ensures |xs| <= n
    decreases n
  {
    if n == 0 {
    } else if n - 1 in xs {
      var k :| 0 <= k < |xs| && xs[k] == n - 1;
      var ys := xs[..k] + xs[k+1..];
      Pigeonhole(ys, n - 1);
    } else {
      Pigeonhole(xs, n - 1);
    }
  }

  lemma {:induction false} PushedElems(e: seq<Id>, p: Id)
    ensures Elems(e + [p]) == Elems(e) + {p}
  {
  }

  lemma {:induction false} FreshElems(e: seq<Id>, p: Id)
    requires p !in e
    ensures p !in Elems(e)
  {
  }

  lemma {:induction false} RoomLeft(g: Graph, e: seq<Id>, p: Id)
    requires Ordered(g, e) && p < |g| && p !in Elems(e)
    ensures |e| < |g|
  {
    Pigeonhole(e + [p], |g|);
  }

  lemma {:induction false} PackedSucc(level: seq<nat>, e: seq<Id>, c: Id)
    requires Packed(level, e) && c in Elems(e)
    ensures c < |level| && level[c] < |e|
  {
  }

  lemma {:induction false} PackedPush(level: seq<nat>, e: seq<Id>, p: Id, k: nat)
    requires Packed(level, e) && p < |level| && p !in Elems(e) && k <= |e|
    ensures Packed(level[p := k], e + [p])
  {
  }

  lemma {:induction false} LevelingPush(g: Graph, S: set<Id>, p: Id, level: seq<nat>, levels: seq<seq<Id>>, k: nat)
    requires Leveling(g, S, level, levels) && ClosedUnder(g, S) && p < |g| && p !in S && SuccSet(g, p) <= S
    requires k < |g| && LevelAt(g, level[p := k], p)
    ensures Leveling(g, S + {p}, level[p := k], levels[k := [p] + levels[k]])
  {
    var level', levels' := level[p := k], levels[k := [p] + levels[k]];
    forall b | b in S ensures LevelAt(g, level', b) {
      assert LevelAt(g, level, b);
    }
    forall l, b | 0 <= l < |g| && 0 <= b < |g| ensures OnLevel(levels', level', S + {p}, l, b) {
      assert OnLevel(levels, level, S, l, b);
    }
    assert OnLevel(levels, level, S, k, p);
  }

  /** Finishing block p after its successors. */
  lemma {:induction false} LevelingStep(g: Graph, e: seq<Id>, p: Id, level: seq<nat>, levels: seq<seq<Id>>, k: nat)
    requires Ordered(g, e) && Leveling(g, Elems(e), level, levels) && Packed(level, e)
    requires p < |g| && p !in Elems(e) && SuccSet(g, p) <= Elems(e)
    requires LevelAt(g, level[p := k], p)
    ensures k <= |e| < |g|
    ensures Leveling(g, Elems(e + [p]), level[p := k], levels[k := [p] + levels[k]]) && Packed(level[p := k], e + [p])
  {
    hide Ordered, Elems, Packed, OnLevel;
    RoomLeft(g, e, p);
    if g[p].s.Jmp? {
      PackedSucc(level, e, g[p].jt);
      PackedSucc(level, e, g[p].jf);
    }
    PackedPush(level, e, p, k);
    OrderedClosed(g, e);
    LevelingPush(g, Elems(e), p, level, levels, k);
    PushedElems(e, p);
  }

  /** sides leads from b down to a leaf. */
  predicate LeafPath(g: Graph, b: Id, sides: seq<bool>)
    requires Closed(g) && b < |g|
    decreases |sides|
  {
    if g[b].s.Jmp? then |sides| > 0 && LeafPath(g, g[b].Succ(sides[0]), sides[1..]) else sides == []
  }

  predicate LeafPathOf(g: Graph, b: Id, sides: seq<bool>, n: nat)
    requires Closed(g) && b < |g|
  {
    LeafPath(g, b, sides) && |sides| == n
  }

  /** The level is the length of a longest path to a leaf. */
  lemma {:induction false} LevelIsLongest(g: Graph, S: set<Id>, level: seq<nat>, levels: seq<seq<Id>>, b: Id)
    requires Leveling(g, S, level, levels) && ClosedUnder(g, S) && b in S
    ensures forall sides :: LeafPath(g, b, sides) ==> |sides| <= level[b]
    ensures exists sides :: LeafPathOf(g, b, sides, level[b])
  {
    forall sides | LeafPath(g, b, sides) ensures |sides| <= level[b] {
      NoLonger(g, S, level, levels, b, sides);
    }
    var sides := Longest(g, S, level, levels, b);
    assert LeafPathOf(g, b, sides, level[b]);
  }

  lemma {:induction false} NoLonger(g: Graph, S: set<Id>, level: seq<nat>, levels: seq<seq<Id>>, b: Id, sides: seq<bool>)
    requires Leveling(g, S, level, levels) && ClosedUnder(g, S) && b in S && LeafPath(g, b, sides)
    ensures |sides| <= level[b]
    decreases |sides|
  {
    assert LevelAt(g, level, b);
    if sides != [] {
      NoLonger(g, S, level, levels, g[b].Succ(sides[0]), sides[1..]);
    }
  }

  lemma {:induction false} Longest(g: Graph, S: set<Id>, level: seq<nat>, levels: seq<seq<Id>>, b: Id) returns (sides: seq<bool>)
    requires Leveling(g, S, level, levels) && ClosedUnder(g, S) && b in S
    ensures LeafPath(g, b, sides) && |sides| == level[b]
    decreases level[b]
  {
    assert LevelAt(g, level, b);
    if g[b].s.Jmp? {
      var side := level[g[b].jf] <= level[g[b].jt];
      var rest := Longest(g, S, level, levels, g[b].Succ(side));
      sides := [side] + rest;
      assert sides[1..] == rest;
    } else {
      sides := [];
    }
  }

  /** Levels found on reachable blocks order them as any levelling does. */
  lemma {:induction false} LevelDescends(g: Graph, S: set<Id>, level: seq<nat>, levels: seq<seq<Id>>, b: Id, c: Id)
    requires Leveling(g, S, level, levels) && b in S && c in SuccSet(g, b)
    ensures c < |g| && level[c] < level[b]
  {
    assert LevelAt(g, level, b);
  }

  class Leveler {
    var node: Graph
    var mark: seq<bool>
    var level: seq<nat>
    var levels: seq<seq<Id>>

    ghost predicate Valid()
      reads this
    {
      |node| == |mark| == |level| == |levels| && Closed(node)
    }

    constructor (g: Graph)
      requires Closed(g)
      ensures Valid() && node == g
    {
      node, mark, level, levels := g, seq(|g|, _ => false), seq(|g|, _ => 0), seq(|g|, _ => []);
    }

    ghost function Marked(): (M: set<Id>)
      reads this
      ensures forall b :: b in M <==> 0 <= b < |mark| && mark[b]
    {
      set b | 0 <= b < |mark| && mark[b]
    }

    method MarkBlock(p: Id)
      requires Valid() && p < |node|
      modifies `mark
      ensures Valid() && Marked() == old(Marked()) + {p}
    {
      mark := mark[p := true];
    }

    /** Set the level of p and push it on the list of that level. */
    method SetLevel(p: Id, ghost e: seq<Id>)
      requires Valid() && p < |node| && p !in Elems(e) && SuccSet(node, p) <= Elems(e)
      requires Ordered(node, e) && Leveling(node, Elems(e), level, levels) && Packed(level, e)
      modifies `level, `levels
      ensures Valid() && Leveling(node, Elems(e + [p]), level, levels) && Packed(level, e + [p])
    {
      var k := 0;
      if node[p].s.Jmp? {
        k := (if level[node[p].jt] < level[node[p].jf] then level[node[p].jf] else level[node[p].jt]) + 1;
      }
      LevelingStep(node, e, p, level, levels, k);
      level := level[p := k];
      levels := levels[k := [p] + levels[k]];
    }

    method FindLevelsR(p: Id, ghost lv: Blocks.Levels, ghost done: seq<Id>)
      requires Valid() && Leveled(node, lv) && p < |node|
      requires Ordered(node, done) && Agrees(Marked(), lv, p, done)
      requires Leveling(node, Elems(done), level, levels) && Packed(level, done)
      modifies `mark, `level, `levels
      ensures Valid() && Marked() == old(Marked()) + Elems(Visit(node, lv, p, done, true))
      ensures Leveling(node, Elems(Visit(node, lv, p, done, true)), level, levels) && Packed(level, Visit(node, lv, p, done, true))
      decreases lv[p]
    {
      hide Agrees, Ordered, Elems, Visit, Marked, Leveling, Packed;
      ghost var M := Marked();
      if mark[p] {
        VisitNothing(node, lv, M, p, done, true);
        return;
      }
      ghost var d, e := Unfold(node, lv, M, p, done, true);
      MarkBlock(p);
      if node[p].s.Jmp? {
        FindLevelsR(node[p].jt, lv, done);
        FindLevelsR(node[p].jf, lv, d);
      } else {
        LeafVisits(node, lv, M, p, done);
      }
      UnfoldSuccs(node, lv, p, done);
      assert p !in Elems(e) by { FreshElems(e, p); }
      SetLevel(p, e);
    }

    /** Level every block reached from root. */
    method FindLevels(root: Id, ghost lv: Blocks.Levels) returns (ghost reach: set<Id>)
      requires Valid() && Leveled(node, lv) && root < |node|
      modifies `mark, `level, `levels
      ensures Valid() && IsReach(node, root, reach) && Leveling(node, reach, level, levels)
    {
      levels := seq(|node|, _ => []);
      mark := seq(|node|, _ => false);
      assert Marked() == {};
      FindLevelsR(root, lv, []);
      VisitReach(node, lv, root, true);
      reach := Elems(Visit(node, lv, root, [], true));
    }
  }
}
