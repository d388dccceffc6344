/** Moving a test to the front of a chain of tests that share one target. */
module Pullup {
  import opened Bpf
  import opened Blocks
  import opened Layout
  import opened Reach
  import opened Dominance
  import opened Dominators
  import opened Walks
  import opened InEdges
  import opened Treatments
  import opened ValuePass

  /** The path p leads from the root to its last block. */
  predicate RootPath(g: Graph, root: Id, p: seq<Id>) { IsPath(BlockPreds(g), {root}, p) }

  predicate HasPath(g: Graph, root: Id, p: seq<Id>, c: Id) { RootPath(g, root, p) && p[|p|-1] == c }

  lemma {:induction false} ReachPath(g: Graph, root: Id, reach: set<Id>, c: Id) returns (p: seq<Id>)
    requires IsReach(g, root, reach) && c in reach
    ensures HasPath(g, root, p, c)
  {
    var T := set b | b in reach && exists p :: HasPath(g, root, p, b);
    assert HasPath(g, root, [root], root);
    forall b | b in T ensures SuccSet(g, b) <= T {
      var q :| HasPath(g, root, q, b);
      forall d: Ref | d in SuccSet(g, b) ensures d in T {
        assert d in reach;
        ExtendPath(g, root, q, b, d);
      }
    }
    assert ClosedUnder(g, T);
    p :| HasPath(g, root, p, c);
  }

  lemma {:induction false} ExtendPath(g: Graph, root: Id, q: seq<Id>, b: Id, d: Id)
    requires HasPath(g, root, q, b) && d < |g| && d in SuccSet(g, b)
    ensures HasPath(g, root, q + [d], d)
  {
    assert (q + [d])[..|q|] == q;
  }

  // A chain from b: all its blocks share the target on one side, and the other side leads down the chain.
  predicate LinkAt(g: Graph, S: set<Id>, b: Id, common: bool, c: Id)
    requires b < |g|
  {
    c < |g| && c in S && g[c].s.Jmp? && g[c].Succ(common) == g[b].Succ(common)
  }

  predicate Chain(g: Graph, S: set<Id>, b: Id, common: bool, chain: seq<Id>) {
    && b < |g| && |chain| > 0 && chain[0] == b
    && (forall i {:trigger chain[i]} :: 0 <= i < |chain| ==> LinkAt(g, S, b, common, chain[i]))
    && forall i {:trigger NextAt(g, common, chain, i)} :: 0 <= i < |chain| - 1 ==> NextAt(g, common, chain, i)
  }

  predicate NextAt(g: Graph, common: bool, chain: seq<Id>, i: nat)
    requires i + 1 < |chain|
  {
    chain[i] < |g| && g[chain[i]].Succ(!common) == chain[i+1]
  }

  /** Levels fall along a chain. */
  lemma {:induction false} ChainFalls(g: Graph, S: set<Id>, level: seq<nat>, b: Id, common: bool, chain: seq<Id>, i: nat, j: nat)
    requires Descends(g, S, level) && Chain(g, S, b, common, chain) && i < j < |chain|
    ensures level[chain[j]] < level[chain[i]]
    decreases j
  {
    assert NextAt(g, common, chain, j - 1);
    Down(g, S, level, chain[j-1], !common);
    if i < j - 1 { ChainFalls(g, S, level, b, common, chain, i, j - 1); }
  }

  /** A path that goes through b and is still above block i of the chain is on the chain. */
  lemma {:induction false} StaysOnChain(g: Graph, root: Id, S: set<Id>, level: seq<nat>, b: Id, common: bool, chain: seq<Id>, i: nat, p: seq<Id>)
    returns (j: nat)
    requires Descends(g, S, level) && Chain(g, S, b, common, chain) && i < |chain| && root in S
    requires RootPath(g, root, p) && b in p && level[p[|p|-1]] > level[chain[i]]
    ensures j < i && p[|p|-1] == chain[j]
    decreases |p|
  {
    var x := p[|p|-1];
    if x == b {
      j := 0;
      if i == 0 { assert false; }
    } else {
      assert |p| > 1 && b in p[..|p|-1];
      PathInside(g, root, S, level, p[..|p|-1]);
      var y := p[|p|-2];
      assert g[y].s.Jmp? && (x == g[y].jt || x == g[y].jf);
      Down(g, S, level, y, x == g[y].jt);
      var k := StaysOnChain(g, root, S, level, b, common, chain, i, p[..|p|-1]);
      assert LinkAt(g, S, b, common, chain[k]);
      assert LinkAt(g, S, b, common, chain[i]);
      Down(g, S, level, chain[i], common);
      assert NextAt(g, common, chain, k);
      j := k + 1;
      assert x == chain[j];
      if j > i { ChainFalls(g, S, level, b, common, chain, i, j); }
    }
  }

  lemma {:induction false} PathInside(g: Graph, root: Id, S: set<Id>, level: seq<nat>, p: seq<Id>)
    requires Descends(g, S, level) && root in S && RootPath(g, root, p)
    ensures p[|p|-1] in S
    decreases |p|
  {
    if |p| > 1 {
      PathInside(g, root, S, level, p[..|p|-1]);
      var y := p[|p|-2];
      Down(g, S, level, y, p[|p|-1] == g[y].jt);
    }
  }

  /** A block of the chain below b, if b dominates it, has exactly one edge leading to it:
      the one from the block before it on the chain. */
  lemma {:induction false} SingleEntry(g: Graph, root: Id, S: set<Id>, level: seq<nat>, b: Id, common: bool, chain: seq<Id>, i: nat, q: Id, side: bool)
    requires Descends(g, S, level) && IsReach(g, root, S) && Chain(g, S, b, common, chain) && 0 < i < |chain|
    requires BlockDominates(g, root, b, chain[i]) && q in S && q < |g| && g[q].s.Jmp? && g[q].Succ(side) == chain[i]
    ensures q == chain[i-1] && side == !common
  {
    var c := chain[i];
    var p := ReachPath(g, root, S, q);
    ExtendPath(g, root, p, q, c);
    assert PathTo(BlockPreds(g), {root}, p + [c], c);
    ChainFalls(g, S, level, b, common, chain, 0, i);
    assert b in p;
    Down(g, S, level, q, side);
    var j := StaysOnChain(g, root, S, level, b, common, chain, i, p);
    assert LinkAt(g, S, b, common, chain[j]) && LinkAt(g, S, b, common, c);
    Down(g, S, level, c, common);
    assert NextAt(g, common, chain, j);
    if j + 1 < i { ChainFalls(g, S, level, b, common, chain, j + 1, i); }
  }

  // Where an edge leads once the last block of the chain has been pulled up to its k-th.
  function NewSucc(g: Graph, common: bool, chain: seq<Id>, k: nat, x: Id, side: bool): Ref
    requires x < |g| && k < |chain| - 1 && chain[|chain|-1] < |g|
  {
    var pull := chain[|chain|-1];
    if x == pull && side == !common then chain[k]
    else if x == chain[|chain|-2] && side == !common then g[pull].Succ(!common)
    else if g[x].Succ(side) == chain[k] then pull
    else g[x].Succ(side)
  }

  predicate PulledAt(g: Graph, g2: Graph, common: bool, chain: seq<Id>, k: nat, x: Id)
    requires x < |g| == |g2| && k < |chain| - 1 && chain[|chain|-1] < |g|
  {
    g[x].s.Jmp? ==> g2[x].jt == NewSucc(g, common, chain, k, x, true) && g2[x].jf == NewSucc(g, common, chain, k, x, false)
  }

  /** g2 is g with the last block of the chain pulled up to its k-th. */
  predicate Pulled(g: Graph, g2: Graph, S: set<Id>, common: bool, chain: seq<Id>, k: nat)
    requires k < |chain| - 1 && chain[|chain|-1] < |g|
  {
    && SameBlocks(g, g2)
    && (forall x {:trigger PulledAt(g, g2, common, chain, k, x)} :: x in S && x < |g| ==> PulledAt(g, g2, common, chain, k, x))
    && forall x {:trigger g2[x]} :: 0 <= x < |g| && (x !in S || !g[x].s.Jmp?) ==> g2[x] == g[x]
  }

  lemma {:induction false} PulledSucc(g: Graph, g2: Graph, S: set<Id>, common: bool, chain: seq<Id>, k: nat, x: Id, side: bool)
    requires k < |chain| - 1 && chain[|chain|-1] < |g| && Pulled(g, g2, S, common, chain, k) && x in S && x < |g| && g[x].s.Jmp?
    ensures |g2| == |g| && g2[x].Succ(side) == NewSucc(g, common, chain, k, x, side) && g2[x].s == g[x].s
  {
    assert PulledAt(g, g2, common, chain, k, x);
  }

  // The chain blocks other than b are dominated by b.
  ghost predicate Dominated(g: Graph, root: Id, b: Id, chain: seq<Id>) {
    forall i {:trigger chain[i]} :: 0 < i < |chain| ==> BlockDominates(g, root, b, chain[i])
  }

  // A chain found in g, whose last block is to be pulled up to the k-th.
  ghost predicate Found(g: Graph, root: Id, S: set<Id>, level: seq<nat>, b: Id, common: bool, chain: seq<Id>, k: nat) {
    && Descends(g, S, level) && IsReach(g, root, S) && Chain(g, S, b, common, chain) && k < |chain| - 1
    && Dominated(g, root, b, chain)
  }

  /** Levels twice as far apart leave room for the pulled block. */
  function NewLevels(level: seq<nat>, chain: seq<Id>, k: nat): (r: seq<nat>)
    requires k < |chain| && chain[k] < |level|
    ensures |r| == |level|
    ensures forall x {:trigger r[x]} :: 0 <= x < |r| ==> r[x] == if x == chain[|chain|-1] then 2 * level[chain[k]] + 1 else 2 * level[x]
  {
    seq(|level|, x requires 0 <= x < |level| => if x == chain[|chain|-1] then 2 * level[chain[k]] + 1 else 2 * level[x])
  }

  lemma {:induction false} FoundFacts(g: Graph, root: Id, S: set<Id>, level: seq<nat>, b: Id, common: bool, chain: seq<Id>, k: nat, i: nat)
    requires Found(g, root, S, level, b, common, chain, k) && i < |chain|
    ensures chain[0] == b && chain[i] < |g| == |level| && chain[i] in S && g[chain[i]].s.Jmp? && g[chain[i]].Succ(common) == g[b].Succ(common)
    ensures i + 1 < |chain| ==> g[chain[i]].Succ(!common) == chain[i+1] && level[chain[i+1]] < level[chain[i]]
    ensures k < i ==> level[chain[i]] < level[chain[k]]
  {
    hide IsReach, BlockDominates;
    assert LinkAt(g, S, b, common, chain[i]);
    if i + 1 < |chain| {
      assert NextAt(g, common, chain, i);
      ChainFalls(g, S, level, b, common, chain, i, i + 1);
    }
    if k < i { ChainFalls(g, S, level, b, common, chain, k, i); }
  }

  /** The pulled-up graph is acyclic. */
  lemma {:induction false} PulledDescends(g: Graph, g2: Graph, root: Id, S: set<Id>, level: seq<nat>, b: Id, common: bool, chain: seq<Id>, k: nat)
    requires Found(g, root, S, level, b, common, chain, k) && k < |chain| - 1
    requires chain[|chain|-1] < |g| && Pulled(g, g2, S, common, chain, k) && chain[k] < |level|
    ensures Descends(g2, S, NewLevels(level, chain, k))
  {
    hide BlockDominates, IsReach, Chain, Found, Pulled;
    var m := |chain| - 1;
    var pull := chain[m];
    FoundFacts(g, root, S, level, b, common, chain, k, m);
    FoundFacts(g, root, S, level, b, common, chain, k, m - 1);
    FoundFacts(g, root, S, level, b, common, chain, k, k);
    FoundDescends(g, root, S, level, b, common, chain, k);
    Down(g, S, level, pull, true);
    Down(g, S, level, pull, false);
    SizesAgree(g, g2, S, common, chain, k);
    forall x | x in S ensures DownAt(g2, S, NewLevels(level, chain, k), x) {
      if g[x].s.Jmp? {
        Down(g, S, level, x, true);
        Down(g, S, level, x, false);
        PulledSucc(g, g2, S, common, chain, k, x, true);
        PulledSucc(g, g2, S, common, chain, k, x, false);
        OnlyFromChain(g, root, S, level, b, common, chain, k, x, true);
        OnlyFromChain(g, root, S, level, b, common, chain, k, x, false);
      }
    }
  }

  lemma {:induction false} SizesAgree(g: Graph, g2: Graph, S: set<Id>, common: bool, chain: seq<Id>, k: nat)
    requires k < |chain| - 1 && chain[|chain|-1] < |g| && Pulled(g, g2, S, common, chain, k)
    ensures |g2| == |g| && forall x :: 0 <= x < |g| ==> g2[x].s == g[x].s && g2[x].stmts == g[x].stmts
  {
  }

  lemma {:induction false} FoundDescends(g: Graph, root: Id, S: set<Id>, level: seq<nat>, b: Id, common: bool, chain: seq<Id>, k: nat)
    requires Found(g, root, S, level, b, common, chain, k)
    ensures Descends(g, S, level) && root in S && k < |chain| - 1
  {
  }

  /** Blocks below the k-th of the chain are entered from the block before them only. */
  lemma {:induction false} OnlyFromChain(g: Graph, root: Id, S: set<Id>, level: seq<nat>, b: Id, common: bool, chain: seq<Id>, k: nat, x: Id, side: bool)
    requires Found(g, root, S, level, b, common, chain, k) && x in S && x < |g| && g[x].s.Jmp?
    ensures forall i {:trigger chain[i]} :: k < i < |chain| && g[x].Succ(side) == chain[i] ==> x == chain[i-1] && side == !common
  {
    hide BlockDominates, IsReach, Descends, Chain;
    forall i | k < i < |chain| && g[x].Succ(side) == chain[i] ensures x == chain[i-1] && side == !common {
      SingleEntry(g, root, S, level, b, common, chain, i, x, side);
    }
  }

  // Blocks that branch choose a side unless they fault.
  predicate Chooses(g: Graph, S: set<Id>, ch: seq<Choice>) {
    |ch| == |g| && forall x {:trigger ch[x]} :: x in S && x < |g| && g[x].s.Jmp? ==> ch[x].Go? || ch[x] == End(Fault)
  }

  predicate Same(o: Outcome, o2: Outcome) { o == Fault || o2 == o }

  /** Below the pulled block nothing changes. */
  lemma {:induction false} BelowPulled(g: Graph, g2: Graph, root: Id, S: set<Id>, level: seq<nat>, level2: seq<nat>, b: Id, common: bool,
                                       chain: seq<Id>, k: nat, ch: seq<Choice>, x: Id)
    requires Found(g, root, S, level, b, common, chain, k) && k < |chain| - 1
    requires chain[|chain|-1] < |g| == |level| && Pulled(g, g2, S, common, chain, k) && |ch| == |g| == |g2|
    requires Descends(g, S, level) && Descends(g2, S, level2) && x in S && x < |g| && level[x] < level[chain[|chain|-1]]
    ensures Walk(g2, S, level2, ch, x) == Walk(g, S, level, ch, x)
    decreases level[x]
  {
    hide BlockDominates, IsReach, Chain, Found, Pulled;
    var m := |chain| - 1;
    SizesAgree(g, g2, S, common, chain, k);
    if ch[x].Go? && g[x].s.Jmp? {
      var side := ch[x].side;
      Down(g, S, level, x, side);
      FoundFacts(g, root, S, level, b, common, chain, k, m - 1);
      FoundFacts(g, root, S, level, b, common, chain, k, m);
      FoundFacts(g, root, S, level, b, common, chain, k, k);
      PulledSucc(g, g2, S, common, chain, k, x, side);
      BelowPulled(g, g2, root, S, level, level2, b, common, chain, k, ch, g[x].Succ(side));
    }
  }

  /** The run through the rest of the chain from its i-th block, before and after, when the pulled
      block does not leave for the common target. */
  lemma {:induction false} ChainPassed(g: Graph, g2: Graph, root: Id, S: set<Id>, level: seq<nat>, level2: seq<nat>, b: Id, common: bool,
                                       chain: seq<Id>, k: nat, ch: seq<Choice>, i: nat)
    requires Found(g, root, S, level, b, common, chain, k) && k < |chain| - 1 && Chooses(g, S, ch)
    requires chain[|chain|-1] < |g| == |level| && Pulled(g, g2, S, common, chain, k) && |ch| == |g| == |g2|
    requires Descends(g, S, level) && Descends(g2, S, level2) && k <= i < |chain| - 1 && chain[i] in S && chain[i] < |g|
    requires ch[chain[|chain|-1]] == Go(!common)
    ensures Same(Walk(g, S, level, ch, chain[i]), Walk(g2, S, level2, ch, chain[i]))
    decreases |chain| - i
  {
    hide BlockDominates, IsReach, Chain, Found, Pulled;
    var m := |chain| - 1;
    var c, pull := chain[i], chain[m];
    FoundFacts(g, root, S, level, b, common, chain, k, i);
    FoundFacts(g, root, S, level, b, common, chain, k, m);
    FoundFacts(g, root, S, level, b, common, chain, k, k);
    SizesAgree(g, g2, S, common, chain, k);
    if ch[c].Go? {
      var side := ch[c].side;
      Down(g, S, level, c, side);
      Down(g, S, level, pull, common);
      Down(g, S, level, pull, !common);
      PulledSucc(g, g2, S, common, chain, k, c, side);
      NotLast(g, root, S, level, b, common, chain, k, i);
      if side == common {
        BelowPulled(g, g2, root, S, level, level2, b, common, chain, k, ch, g[c].Succ(common));
      } else if i == m - 1 {
        BelowPulled(g, g2, root, S, level, level2, b, common, chain, k, ch, g[pull].Succ(!common));
      } else {
        ChainPassed(g, g2, root, S, level, level2, b, common, chain, k, ch, i + 1);
      }
    }
  }

  lemma {:induction false} NotLast(g: Graph, root: Id, S: set<Id>, level: seq<nat>, b: Id, common: bool, chain: seq<Id>, k: nat, i: nat)
    requires Found(g, root, S, level, b, common, chain, k) && k <= i < |chain| - 1
    ensures chain[i] != chain[|chain|-1] && (i < |chain| - 2 ==> chain[i] != chain[|chain|-2] && chain[i+1] != chain[k])
  {
    hide BlockDominates, IsReach;
    ChainFalls(g, S, level, b, common, chain, i, |chain| - 1);
    if i < |chain| - 2 {
      ChainFalls(g, S, level, b, common, chain, i, |chain| - 2);
      ChainFalls(g, S, level, b, common, chain, k, i + 1);
    }
  }

  /** When the pulled block leaves for the common target, so did the chain, at that block or before. */
  lemma {:induction false} ChainLeft(g: Graph, root: Id, S: set<Id>, level: seq<nat>, b: Id, common: bool, chain: seq<Id>, k: nat, ch: seq<Choice>, i: nat)
    requires Found(g, root, S, level, b, common, chain, k) && k < |chain| - 1 && Chooses(g, S, ch)
    requires Descends(g, S, level) && k <= i < |chain| && chain[i] in S && chain[|chain|-1] < |g|
    requires ch[chain[|chain|-1]] == Go(common) && b < |g| && 0 <= g[b].Succ(common) && g[b].Succ(common) in S
    ensures Same(Walk(g, S, level, ch, chain[i]), Walk(g, S, level, ch, g[b].Succ(common)))
    decreases |chain| - i
  {
    hide BlockDominates, IsReach, Chain, Found;
    FoundFacts(g, root, S, level, b, common, chain, k, i);
    if ch[chain[i]] == Go(!common) {
      ChainLeft(g, root, S, level, b, common, chain, k, ch, i + 1) by { FoundFacts(g, root, S, level, b, common, chain, k, i + 1); }
    }
  }

  /** Entering the chain at its k-th block before is like entering the pulled block after. */
  lemma {:induction false} ChainEntered(g: Graph, g2: Graph, root: Id, S: set<Id>, level: seq<nat>, level2: seq<nat>, b: Id, common: bool,
                                        chain: seq<Id>, k: nat, ch: seq<Choice>)
    requires Found(g, root, S, level, b, common, chain, k) && k < |chain| - 1 && Chooses(g, S, ch)
    requires chain[|chain|-1] < |g| == |level| && Pulled(g, g2, S, common, chain, k) && |ch| == |g| == |g2|
    requires Descends(g, S, level) && Descends(g2, S, level2) && chain[k] in S && chain[|chain|-1] in S
    requires ch[chain[|chain|-1]] != End(Fault)
    ensures Same(Walk(g, S, level, ch, chain[k]), Walk(g2, S, level2, ch, chain[|chain|-1]))
  {
    hide BlockDominates, IsReach, Chain, Found, Pulled;
    var m := |chain| - 1;
    var pull := chain[m];
    FoundFacts(g, root, S, level, b, common, chain, k, m);
    FoundFacts(g, root, S, level, b, common, chain, k, k);
    SizesAgree(g, g2, S, common, chain, k);
    Down(g, S, level, pull, common);
    PulledSucc(g, g2, S, common, chain, k, pull, ch[pull].side);
    NotLast(g, root, S, level, b, common, chain, k, m - 1);
    if ch[pull] == Go(common) {
      BelowPulled(g, g2, root, S, level, level2, b, common, chain, k, ch, g[pull].Succ(common));
      FoundFacts(g, root, S, level, b, common, chain, k, 0);
      ChainLeft(g, root, S, level, b, common, chain, k, ch, k);
    } else {
      ChainPassed(g, g2, root, S, level, level2, b, common, chain, k, ch, k);
    }
  }

  /** From a block outside the moved stretch of the chain the outcome is the same, unless the
      original run or the pulled block faults. */
  lemma {:induction false} PulledWalk(g: Graph, g2: Graph, root: Id, S: set<Id>, level: seq<nat>, level2: seq<nat>, b: Id, common: bool,
                                      chain: seq<Id>, k: nat, ch: seq<Choice>, x: Id)
    requires Found(g, root, S, level, b, common, chain, k) && k < |chain| - 1 && Chooses(g, S, ch)
    requires chain[|chain|-1] < |g| == |level| && Pulled(g, g2, S, common, chain, k) && |ch| == |g| == |g2|
    requires Descends(g, S, level) && Descends(g2, S, level2) && ch[chain[|chain|-1]] != End(Fault)
    requires x in S && x < |g| && x !in chain[k..]
    ensures Same(Walk(g, S, level, ch, x), Walk(g2, S, level2, ch, x))
    decreases level[x]
  {
    hide BlockDominates, IsReach, Chain, Found, Pulled;
    var m := |chain| - 1;
    SizesAgree(g, g2, S, common, chain, k);
    if ch[x].Go? && g[x].s.Jmp? {
      var side := ch[x].side;
      Down(g, S, level, x, side);
      PulledSucc(g, g2, S, common, chain, k, x, side);
      assert chain[k..][m-k] == chain[m] && chain[k..][m-1-k] == chain[m-1];
      var y := g[x].Succ(side);
      if y == chain[k] {
        FoundFacts(g, root, S, level, b, common, chain, k, m);
        ChainEntered(g, g2, root, S, level, level2, b, common, chain, k, ch);
      } else {
        OnlyFromChain(g, root, S, level, b, common, chain, k, x, side);
        forall i | k < i < |chain| ensures chain[i] != y {
          assert chain[k..][i-1-k] == chain[i-1];
        }
        PulledWalk(g, g2, root, S, level, level2, b, common, chain, k, ch, y);
      }
    }
  }

  predicate PulledKeeps(g: Graph, g2: Graph, S: set<Id>, level: seq<nat>, level2: seq<nat>, root: Id, pull: Id, ch: seq<Choice>)
    requires Descends(g, S, level) && Descends(g2, S, level2) && root in S && |g2| == |g|
  {
    Chooses(g, S, ch) && pull < |ch| && ch[pull] != End(Fault) ==>
      Same(Walk(g, S, level, ch, root), Walk(g2, S, level2, ch, root))
  }

  /** The result of a pull: an acyclic graph of the same blocks in which every walk from the root ends
      as before, unless it faulted before or the pulled block itself faults. */
  ghost predicate PullSafe(g: Graph, g2: Graph, S: set<Id>, level: seq<nat>, level2: seq<nat>, root: Id, pull: Id) {
    && SameBlocks(g, g2) && Closed(g2) && Descends(g, S, level) && Descends(g2, S, level2) && root in S && pull != root && pull < |g|
    && (forall x {:trigger g2[x]} :: 0 <= x < |g| && x !in S ==> g2[x] == g[x])
    && forall ch :: PulledKeeps(g, g2, S, level, level2, root, pull, ch)
  }

  lemma {:induction false} PullIsSafe(g: Graph, g2: Graph, root: Id, S: set<Id>, level: seq<nat>, b: Id, common: bool, chain: seq<Id>, k: nat)
    requires Closed(g) && Found(g, root, S, level, b, common, chain, k) && k < |chain| - 1 && b in S
    requires (b != root) && chain[|chain|-1] < |g| && Pulled(g, g2, S, common, chain, k) && chain[k] < |level|
    ensures PullSafe(g, g2, S, level, NewLevels(level, chain, k), root, chain[|chain|-1])
  {
    hide BlockDominates, Chain, Found, Pulled, Walk, Descends;
    var level2 := NewLevels(level, chain, k);
    FoundDescends(g, root, S, level, b, common, chain, k);
    PulledDescends(g, g2, root, S, level, b, common, chain, k);
    PulledClosed(g, g2, root, S, level, b, common, chain, k);
    RootOutside(g, root, S, level, b, common, chain, k);
    assert chain[k..][|chain|-1-k] == chain[|chain|-1];
    var pull := chain[|chain|-1];
    forall ch ensures PulledKeeps(g, g2, S, level, level2, root, pull, ch) {
      if Chooses(g, S, ch) && pull < |ch| && ch[pull] != End(Fault) {
        PulledWalk(g, g2, root, S, level, level2, b, common, chain, k, ch, root);
      }
    }
  }

  lemma {:induction false} PulledClosed(g: Graph, g2: Graph, root: Id, S: set<Id>, level: seq<nat>, b: Id, common: bool, chain: seq<Id>, k: nat)
    requires Closed(g) && Found(g, root, S, level, b, common, chain, k) && k < |chain| - 1
    requires chain[|chain|-1] < |g| && Pulled(g, g2, S, common, chain, k) && chain[k] < |level|
    ensures Closed(g2) && SameBlocks(g, g2) && |g| == |g2| == |level| && root < |g|
    ensures forall x {:trigger g2[x]} :: 0 <= x < |g| && x !in S ==> g2[x] == g[x]
  {
    hide BlockDominates, Chain, Found;
    var m := |chain| - 1;
    FoundFacts(g, root, S, level, b, common, chain, k, m);
    FoundFacts(g, root, S, level, b, common, chain, k, k);
    FoundRoot(g, root, S, level, b, common, chain, k);
    forall x | 0 <= x < |g| ensures g2[x].s == g[x].s && if g[x].s.Jmp? then 0 <= g2[x].jt < |g| && 0 <= g2[x].jf < |g| else g2[x].jt == g2[x].jf == NIL {
      if x in S { assert PulledAt(g, g2, common, chain, k, x); }
    }
  }

  lemma {:induction false} FoundRoot(g: Graph, root: Id, S: set<Id>, level: seq<nat>, b: Id, common: bool, chain: seq<Id>, k: nat)
    requires Found(g, root, S, level, b, common, chain, k)
    ensures root < |g|
  {
  }

  lemma {:induction false} RootUndominated(g: Graph, root: Id, b: Id)
    requires root < |g| && BlockDominates(g, root, b, root)
    ensures b == root
  {
    assert PathTo(BlockPreds(g), {root}, [root], root);
  }

  /** The root is not on the moved stretch: b is below it. */
  lemma {:induction false} RootOutside(g: Graph, root: Id, S: set<Id>, level: seq<nat>, b: Id, common: bool, chain: seq<Id>, k: nat)
    requires Found(g, root, S, level, b, common, chain, k) && b != root && b in S && k < |chain|
    ensures root !in chain[k..]
  {
    hide Descends, IsReach, Chain;
    FoundRoot(g, root, S, level, b, common, chain, k);
    assert HasPath(g, root, [root], root);
    forall i | k <= i < |chain| ensures chain[i] != root {
      if i > 0 && chain[i] == root { RootUndominated(g, root, b); }
      if i == 0 { FoundFacts(g, root, S, level, b, common, chain, k, 0); }
    }
  }

  // The predecessors' edges among the first i of edges moved from b to pull.
  predicate RetargetedAt(g: Graph, g2: Graph, edges: seq<EdgeId>, i: nat, b: Id, pull: Id, x: Id)
    requires x < |g| == |g2| && i <= |edges|
  {
    var t, f := EdgeOf(g, x, true) in edges[..i], EdgeOf(g, x, false) in edges[..i];
    var both := g[x].jt == b && g[x].jf == b;
    && g2[x] == g[x].(jt := g2[x].jt, jf := g2[x].jf)
    && g2[x].jt == (if g[x].jt == b && (t || (both && f)) then pull else g[x].jt)
    && g2[x].jf == (if g[x].jf == b && (if both then t && f else f) then pull else g[x].jf)
  }

  predicate Retargeted(g: Graph, g2: Graph, edges: seq<EdgeId>, i: nat, b: Id, pull: Id) {
    && |g| == |g2| && i <= |edges|
    && forall x {:trigger RetargetedAt(g, g2, edges, i, b, pull, x)} {:trigger g2[x]} :: 0 <= x < |g| ==> RetargetedAt(g, g2, edges, i, b, pull, x)
  }

  lemma {:induction false} RetargetedNext(g: Graph, g2: Graph, edges: seq<EdgeId>, i: nat, b: Id, pull: Id)
    requires Retargeted(g, g2, edges, i, b, pull) && i < |edges| && NoDup(edges) && b != pull
    requires edges[i] < 2 * |g| && Head(g, edges[i]) == b
    ensures var x := Tail(g, edges[i]);
      Retargeted(g, g2[x := if g2[x].jt == b then g2[x].(jt := pull) else g2[x].(jf := pull)], edges, i + 1, b, pull)
  {
    var x := Tail(g, edges[i]);
    var g3 := g2[x := if g2[x].jt == b then g2[x].(jt := pull) else g2[x].(jf := pull)];
    assert edges[..i+1] == edges[..i] + [edges[i]];
    assert edges[i] !in edges[..i];
    var i' := i + 1;
    forall y | 0 <= y < |g| ensures RetargetedAt(g, g3, edges, i', b, pull, y) {
      assert RetargetedAt(g, g2, edges, i, b, pull, y);
    }
  }

  // The chain closed behind the pulled block, and the pulled block put before the k-th.
  function Respliced(g: Graph, common: bool, chain: seq<Id>, k: nat): (r: Graph)
    requires 1 < |chain| && k < |chain| && chain[|chain|-1] < |g| && chain[|chain|-2] < |g| && 0 <= g[chain[|chain|-1]].Succ(!common)
  {
    var pull := chain[|chain|-1];
    Moved(Moved(g, EdgeOf(g, chain[|chain|-2], !common), g[pull].Succ(!common)), EdgeOf(g, pull, !common), chain[k])
  }

  lemma {:induction false} ResplicedAt(g: Graph, common: bool, chain: seq<Id>, k: nat, x: Id)
    requires 1 < |chain| && k < |chain| && chain[|chain|-1] < |g| && chain[|chain|-2] < |g| && 0 <= g[chain[|chain|-1]].Succ(!common)
    requires x < |g| && chain[|chain|-1] != chain[|chain|-2]
    ensures |Respliced(g, common, chain, k)| == |g|
    ensures Respliced(g, common, chain, k)[x] == g[x].(jt := Respliced(g, common, chain, k)[x].jt, jf := Respliced(g, common, chain, k)[x].jf)
    ensures forall side :: Respliced(g, common, chain, k)[x].Succ(side)
                           == (if x == chain[|chain|-1] && side == !common then chain[k]
                               else if x == chain[|chain|-2] && side == !common then g[chain[|chain|-1]].Succ(!common)
                               else g[x].Succ(side))
  {
  }

  /** Inside the chain one more edge completes the pull. */
  lemma {:induction false} PulledInside(g: Graph, root: Id, S: set<Id>, level: seq<nat>, b: Id, common: bool, chain: seq<Id>, k: nat)
    requires Found(g, root, S, level, b, common, chain, k) && 0 < k < |chain| - 1 && chain[k-1] < |g|
    requires chain[|chain|-1] < |g| && chain[|chain|-2] < |g| && 0 <= g[chain[|chain|-1]].Succ(!common)
    ensures Pulled(g, Moved(Respliced(g, common, chain, k), EdgeOf(g, chain[k-1], !common), chain[|chain|-1]), S, common, chain, k)
  {
    hide BlockDominates, Chain, Found, Respliced, IsReach, Descends;
    var m := |chain| - 1;
    var pull := chain[m];
    var ga := Respliced(g, common, chain, k);
    FoundFacts(g, root, S, level, b, common, chain, k, m);
    FoundFacts(g, root, S, level, b, common, chain, k, m - 1);
    FoundFacts(g, root, S, level, b, common, chain, k, k);
    FoundFacts(g, root, S, level, b, common, chain, k, k - 1);
    ResplicedAt(g, common, chain, k, pull);
    var g2 := Moved(ga, EdgeOf(g, chain[k-1], !common), pull);
    FoundDescends(g, root, S, level, b, common, chain, k);
    forall x | 0 <= x < |g| ensures g2[x] == g[x].(jt := g2[x].jt, jf := g2[x].jf) && (x !in S || !g[x].s.Jmp? ==> g2[x] == g[x])
      && (x in S ==> PulledAt(g, g2, common, chain, k, x))
    {
      ResplicedAt(g, common, chain, k, x);
      if x in S && g[x].s.Jmp? {
        EnterKth(g, root, S, level, b, common, chain, k, x, true);
        EnterKth(g, root, S, level, b, common, chain, k, x, false);
      }
      assert ga[x].Succ(true) == ga[x].jt && ga[x].Succ(false) == ga[x].jf;
    }
  }

  /** The k-th block is entered from the block before it only. */
  lemma {:induction false} EnterKth(g: Graph, root: Id, S: set<Id>, level: seq<nat>, b: Id, common: bool, chain: seq<Id>, k: nat, x: Id, side: bool)
    requires Found(g, root, S, level, b, common, chain, k) && 0 < k < |chain| - 1 && x in S && x < |g| && g[x].s.Jmp?
    ensures g[x].Succ(side) == chain[k] <==> x == chain[k-1] && side == !common
  {
    hide BlockDominates, IsReach, Descends, Chain;
    FoundFacts(g, root, S, level, b, common, chain, k, k - 1);
    if g[x].Succ(side) == chain[k] {
      SingleEntry(g, root, S, level, b, common, chain, k, x, side);
    }
  }

  /** At the top of the chain every edge to it has to be moved. */
  lemma {:induction false} PulledTop(g: Graph, g2: Graph, root: Id, S: set<Id>, level: seq<nat>, b: Id, common: bool, chain: seq<Id>, inEdges: seq<seq<EdgeId>>)
    requires Closed(g) && Found(g, root, S, level, b, common, chain, 0) && 1 < |chain| && b < |g| == |inEdges| && Entering(g, S, inEdges)
    requires chain[|chain|-1] < |g| && chain[|chain|-2] < |g| && 0 <= g[chain[|chain|-1]].Succ(!common)
    requires Retargeted(Respliced(g, common, chain, 0), g2, inEdges[b], |inEdges[b]|, b, chain[|chain|-1])
    ensures Pulled(g, g2, S, common, chain, 0)
  {
    hide BlockDominates, Chain, Found, Respliced, IsReach, Descends, Entering;
    var m := |chain| - 1;
    var pull := chain[m];
    var ga := Respliced(g, common, chain, 0);
    FoundFacts(g, root, S, level, b, common, chain, 0, m);
    FoundFacts(g, root, S, level, b, common, chain, 0, m - 1);
    FoundFacts(g, root, S, level, b, common, chain, 0, 0);
    ResplicedAt(g, common, chain, 0, pull);
    assert inEdges[b][..|inEdges[b]|] == inEdges[b];
    forall x | 0 <= x < |g| ensures g2[x] == g[x].(jt := g2[x].jt, jf := g2[x].jf) && (x !in S || !g[x].s.Jmp? ==> g2[x] == g[x])
      && (x in S ==> PulledAt(g, g2, common, chain, 0, x))
    {
      ResplicedAt(g, common, chain, 0, x);
      assert RetargetedAt(ga, g2, inEdges[b], |inEdges[b]|, b, pull, x);
      EnterTop(g, root, S, level, b, common, chain, inEdges, x, true);
      EnterTop(g, root, S, level, b, common, chain, inEdges, x, false);
      assert ga[x].Succ(true) == ga[x].jt && ga[x].Succ(false) == ga[x].jf;
    }
  }

  lemma {:induction false} EnterTop(g: Graph, root: Id, S: set<Id>, level: seq<nat>, b: Id, common: bool, chain: seq<Id>, inEdges: seq<seq<EdgeId>>, x: Id, side: bool)
    requires Closed(g) && Found(g, root, S, level, b, common, chain, 0) && 1 < |chain| && b < |g| == |inEdges| && Entering(g, S, inEdges) && x < |g|
    ensures EdgeOf(g, x, side) in inEdges[b] <==> x in S && g[x].Succ(side) == b
    ensures EdgeOf(g, x, side) in inEdges[b] ==> g[x].s.Jmp? && x !in chain
  {
    hide BlockDominates, IsReach, Chain;
    assert EntersAt(g, S, inEdges, b, EdgeOf(g, x, side));
    if x in S && g[x].Succ(side) == b && g[x].s.Jmp? {
      Down(g, S, level, x, side);
      forall i | 0 <= i < |chain| ensures chain[i] != x {
        FoundFacts(g, root, S, level, b, common, chain, 0, i);
      }
    }
  }

  // What the passes before have computed for the graph as it is.
  datatype Facts = Facts(inEdges: seq<seq<EdgeId>>, dom: seq<set<Id>>, val: seq<Vals>)

  ghost predicate Current(g: Graph, fx: Facts, root: Id, S: set<Id>, level: seq<nat>) {
    && Closed(g) && IsReach(g, root, S) && Descends(g, S, level)
    && |fx.inEdges| == |fx.dom| == |fx.val| == |g| && Entering(g, S, fx.inEdges)
    && forall c, x :: c in S && 0 <= x < |g| ==> (x in fx.dom[c] <==> BlockDominates(g, root, x, c))
  }

  // The chain can go on with block c.
  predicate Fits(g: Graph, fx: Facts, b: Id, common: bool, c: Ref)
    requires b < |g| == |fx.dom|
  {
    0 <= c < |g| && g[c].Succ(common) == g[b].Succ(common) && b in fx.dom[c]
  }

  predicate FitChain(g: Graph, fx: Facts, b: Id, common: bool, chain: seq<Id>)
    requires b < |g| == |fx.dom|
  {
    && (|chain| > 0 ==> chain[0] == b)
    && (forall i {:trigger chain[i]} :: 0 <= i < |chain| ==> Fits(g, fx, b, common, chain[i]))
    && forall i {:trigger NextAt(g, common, chain, i)} :: 0 <= i < |chain| - 1 ==> NextAt(g, common, chain, i)
  }

  // The block that comes after the chain.
  function After(g: Graph, b: Id, common: bool, chain: seq<Id>): Ref
    requires |chain| > 0 ==> chain[|chain|-1] < |g|
  {
    if |chain| == 0 then b else g[chain[|chain|-1]].Succ(!common)
  }

  // The A number of chain block j is v exactly if same.
  predicate NumberIs(fx: Facts, chain: seq<Id>, v: nat, j: nat)
    requires j < |chain|
  {
    chain[j] < |fx.val| && fx.val[chain[j]][A_ATOM] == v
  }

  /** The blocks before the k-th have the number v of the predecessors, those from it on have not,
      and the last has it again: the case for a pull. */
  predicate Wanted(g: Graph, fx: Facts, b: Id, common: bool, v: nat, chain: seq<Id>, k: nat)
    requires b < |g| == |fx.dom|
  {
    && FitChain(g, fx, b, common, chain) && k < |chain| - 1
    && (forall j {:trigger NumberIs(fx, chain, v, j)} :: 0 <= j < |chain| ==>
          (NumberIs(fx, chain, v, j) <==> j < k || j == |chain| - 1))
  }

  lemma {:induction false} ChainsAgree(g: Graph, fx: Facts, b: Id, common: bool, x: seq<Id>, y: seq<Id>, i: nat)
    requires b < |g| == |fx.dom| && FitChain(g, fx, b, common, x) && FitChain(g, fx, b, common, y) && i < |x| && i <= |y|
    ensures if i < |y| then x[i] == y[i] else (|y| > 0 ==> y[|y|-1] < |g|) && x[i] == After(g, b, common, y)
  {
    if i > 0 {
      ChainsAgree(g, fx, b, common, x, y, i - 1);
      assert NextAt(g, common, x, i - 1);
      if i < |y| { assert NextAt(g, common, y, i - 1); } else { assert y[|y|-1] == x[i-1]; }
    }
  }

  /** No chain has a block from index n on whose number is v exactly if same. */
  ghost predicate NoneAfter(g: Graph, fx: Facts, b: Id, common: bool, v: nat, same: bool, n: nat)
    requires b < |g| == |fx.dom|
  {
    forall x, j {:trigger NumberIs(fx, x, v, j)} :: FitChain(g, fx, b, common, x) && n <= j < |x| ==> NumberIs(fx, x, v, j) != same
  }

  lemma {:induction false} StuckHere(g: Graph, fx: Facts, b: Id, common: bool, v: nat, same: bool, chain: seq<Id>, n: nat)
    requires b < |g| == |fx.dom| && FitChain(g, fx, b, common, chain) && (|chain| > 0 ==> chain[|chain|-1] < |g|)
    requires !Fits(g, fx, b, common, After(g, b, common, chain))
    requires forall j {:trigger NumberIs(fx, chain, v, j)} :: n <= j < |chain| ==> NumberIs(fx, chain, v, j) != same
    ensures NoneAfter(g, fx, b, common, v, same, n)
  {
    forall x, j | FitChain(g, fx, b, common, x) && n <= j < |x| ensures NumberIs(fx, x, v, j) != same {
      if |chain| < |x| { ChainsAgree(g, fx, b, common, x, chain, |chain|); }
      ChainsAgree(g, fx, b, common, x, chain, j);
      assert NumberIs(fx, chain, v, j) != same;
    }
  }

  /** g2 is g with the last block of the chain pulled up to its k-th, the case the search looks for. */
  ghost predicate PullOf(g: Graph, g2: Graph, fx: Facts, root: Id, S: set<Id>, level: seq<nat>, b: Id, common: bool, chain: seq<Id>, k: nat) {
    && Current(g, fx, root, S, level) && b < |g| && b in S && b != root && k < |chain| - 1 && chain[|chain|-1] < |g| && chain[k] < |level|
    && Found(g, root, S, level, b, common, chain, k) && Pulled(g, g2, S, common, chain, k)
    && exists v: nat {:trigger PredsAre(g, fx, b, v)} :: PredsAre(g, fx, b, v) && Wanted(g, fx, b, common, v, chain, k)
  }

  lemma {:induction false} PullIs(g: Graph, g2: Graph, fx: Facts, root: Id, S: set<Id>, level: seq<nat>, b: Id, common: bool, chain: seq<Id>, k: nat, v: nat)
    requires Current(g, fx, root, S, level) && b < |g| && b in S && b != root && k < |chain| - 1 && chain[|chain|-1] < |g| && chain[k] < |level|
    requires Found(g, root, S, level, b, common, chain, k) && Pulled(g, g2, S, common, chain, k)
    requires PredsAre(g, fx, b, v) && Wanted(g, fx, b, common, v, chain, k)
    ensures PullOf(g, g2, fx, root, S, level, b, common, chain, k)
  {
    hide Current, Found, Pulled, PredsAre, Wanted;
  }

  /** Such a pull is safe where the pulled block does not fault. */
  lemma {:induction false} PullOfSafe(g: Graph, g2: Graph, fx: Facts, root: Id, S: set<Id>, level: seq<nat>, b: Id, common: bool, chain: seq<Id>, k: nat)
    requires PullOf(g, g2, fx, root, S, level, b, common, chain, k)
    ensures PullSafe(g, g2, S, level, NewLevels(level, chain, k), root, chain[|chain|-1])
  {
    hide Found, Pulled, PredsAre, Wanted, IsReach, Descends, Entering, BlockDominates, PullSafe;
    PullIsSafe(g, g2, root, S, level, b, common, chain, k);
  }

  /** Walks that cannot get into T without a fault do not depend on the choices made there. */
  lemma {:induction false} WalkAvoids(g: Graph, S: set<Id>, level: seq<nat>, ch: seq<Choice>, ch2: seq<Choice>, T: set<Id>, x: Id)
    requires Descends(g, S, level) && |ch| == |ch2| == |g| && x in S && x < |g| && x !in T
    requires forall c {:trigger ch2[c]} :: 0 <= c < |g| && c !in T ==> ch2[c] == ch[c]
    requires forall q, side {:trigger g[q].Succ(side)} :: q in S && q < |g| && q !in T && g[q].s.Jmp? && g[q].Succ(side) in T ==> ch[q] == End(Fault)
    ensures Walk(g, S, level, ch2, x) == Walk(g, S, level, ch, x)
    decreases level[x]
  {
    if ch[x].Go? && g[x].s.Jmp? {
      Down(g, S, level, x, ch[x].side);
      assert g[x].Succ(ch[x].side) !in T;
      WalkAvoids(g, S, level, ch, ch2, T, g[x].Succ(ch[x].side));
    }
  }

  /** From outside, the chain is entered at the top. */
  lemma {:induction false} EnteredAtTop(g: Graph, root: Id, S: set<Id>, level: seq<nat>, b: Id, common: bool, chain: seq<Id>, k: nat, q: Id, side: bool)
    requires Found(g, root, S, level, b, common, chain, k) && q in S && q < |g| && g[q].s.Jmp? && q !in chain && g[q].Succ(side) in chain
    ensures g[q].Succ(side) == b
  {
    hide Descends, IsReach, Chain, BlockDominates;
    var i :| 0 <= i < |chain| && chain[i] == g[q].Succ(side);
    FoundFacts(g, root, S, level, b, common, chain, k, 0);
    if i > 0 { SingleEntry(g, root, S, level, b, common, chain, i, q, side); }
  }

  /** So is the chain of the pulled graph, by the same blocks. */
  lemma {:induction false} PulledEntered(g: Graph, g2: Graph, root: Id, S: set<Id>, level: seq<nat>, b: Id, common: bool, chain: seq<Id>, k: nat, q: Id, side: bool)
    requires Found(g, root, S, level, b, common, chain, k) && chain[|chain|-1] < |g| && Pulled(g, g2, S, common, chain, k)
    requires q in S && q < |g| == |g2| && g2[q].s.Jmp? && q !in chain && g2[q].Succ(side) in chain
    ensures g[q].s.Jmp? && g[q].Succ(side) == b
  {
    hide Found, Pulled;
    FoundLength(g, root, S, level, b, common, chain, k);
    BlocksSame(g, g2, S, common, chain, k);
    PulledSucc(g, g2, S, common, chain, k, q, side);
    assert chain[|chain|-1] in chain && chain[|chain|-2] in chain && chain[k] in chain;
    EnteredAtTop(g, root, S, level, b, common, chain, k, q, side);
  }

  lemma {:induction false} FoundLast(g: Graph, root: Id, S: set<Id>, level: seq<nat>, b: Id, common: bool, chain: seq<Id>, k: nat)
    requires Found(g, root, S, level, b, common, chain, k)
    ensures |chain| > 0 && chain[|chain|-1] in S && chain[|chain|-1] < |g| && g[chain[|chain|-1]].s.Jmp?
  {
    hide Descends, IsReach, Chain, BlockDominates;
    FoundFacts(g, root, S, level, b, common, chain, k, |chain| - 1);
  }

  lemma {:induction false} FoundLength(g: Graph, root: Id, S: set<Id>, level: seq<nat>, b: Id, common: bool, chain: seq<Id>, k: nat)
    requires Found(g, root, S, level, b, common, chain, k)
    ensures k < |chain| - 1
  {
  }

  lemma {:induction false} BlocksSame(g: Graph, g2: Graph, S: set<Id>, common: bool, chain: seq<Id>, k: nat)
    requires k < |chain| - 1 && chain[|chain|-1] < |g| && Pulled(g, g2, S, common, chain, k)
    ensures SameBlocks(g, g2)
  {
  }

  /** A pull keeps every walk that does not fault, if wherever the pulled block faults all blocks that lead to the chain do. */
  lemma {:induction false} PulledAnyway(g: Graph, g2: Graph, fx: Facts, root: Id, S: set<Id>, level: seq<nat>, b: Id, common: bool, chain: seq<Id>, k: nat,
                                        ch: seq<Choice>)
    requires PullOf(g, g2, fx, root, S, level, b, common, chain, k) && Chooses(g, S, ch) && |ch| == |g|
    requires ch[chain[|chain|-1]] == End(Fault) ==>
      forall q, side {:trigger g[q].Succ(side)} :: q in S && q < |g| && g[q].s.Jmp? && g[q].Succ(side) == b ==> ch[q] == End(Fault)
    ensures Descends(g, S, level) && Descends(g2, S, NewLevels(level, chain, k)) && root in S && |g2| == |g|
    ensures Same(Walk(g, S, level, ch, root), Walk(g2, S, NewLevels(level, chain, k), ch, root))
  {
    hide Found, Pulled, PredsAre, Wanted, IsReach, Descends, Entering, BlockDominates, Chooses, Walk;
    PullOfSafe(g, g2, fx, root, S, level, b, common, chain, k);
    var level2, pull := NewLevels(level, chain, k), chain[|chain|-1];
    if ch[pull] != End(Fault) {
      assert PulledKeeps(g, g2, S, level, level2, root, pull, ch);
    } else {
      var ch2 := ch[pull := Go(true)];
      var T := set x | x in chain;
      ChoosesStill(g, S, ch, pull);
      assert PulledKeeps(g, g2, S, level, level2, root, pull, ch2);
      RootOffChain(g, root, S, level, b, common, chain, k);
      forall q, side | q in S && q < |g| && q !in T && g[q].s.Jmp? && g[q].Succ(side) in T ensures ch[q] == End(Fault) {
        EnteredAtTop(g, root, S, level, b, common, chain, k, q, side);
      }
      WalkAvoids(g, S, level, ch, ch2, T, root);
      forall q, side | q in S && q < |g2| && q !in T && g2[q].s.Jmp? && g2[q].Succ(side) in T ensures ch[q] == End(Fault) {
        PulledEntered(g, g2, root, S, level, b, common, chain, k, q, side);
      }
      WalkAvoids(g2, S, level2, ch, ch2, T, root);
    }
  }

  lemma {:induction false} ChoosesStill(g: Graph, S: set<Id>, ch: seq<Choice>, pull: Id)
    requires Chooses(g, S, ch) && pull < |g|
    ensures Chooses(g, S, ch[pull := Go(true)])
  {
  }

  lemma {:induction false} RootOffChain(g: Graph, root: Id, S: set<Id>, level: seq<nat>, b: Id, common: bool, chain: seq<Id>, k: nat)
    requires Found(g, root, S, level, b, common, chain, k) && b != root && b in S
    ensures root < |g| && root in S && root !in chain
  {
    hide Descends, IsReach, Chain, BlockDominates;
    FoundRoot(g, root, S, level, b, common, chain, k);
    assert root in S by { RootIn(g, root, S); }
    assert HasPath(g, root, [root], root);
    forall i | 0 <= i < |chain| ensures chain[i] != root {
      if i > 0 && chain[i] == root { RootUndominated(g, root, b); }
      if i == 0 { FoundFacts(g, root, S, level, b, common, chain, k, 0); }
    }
  }

  lemma {:induction false} RootIn(g: Graph, root: Id, S: set<Id>)
    requires IsReach(g, root, S)
    ensures root in S
  {
  }

  class Puller {
    var node: Graph
    const fx: Facts

    constructor (g: Graph, facts: Facts)
      ensures node == g && fx == facts
    {
      node, fx := g, facts;
    }

    /** Go down the chain to the first block whose A number is v, or is not v. */
    method Search(b: Id, common: bool, v: nat, same: bool, from: EdgeId, ghost chain0: seq<Id>, ghost S: set<Id>, ghost level: seq<nat>)
      returns (ok: bool, slot: EdgeId, atTop: bool, ghost chain: seq<Id>)
      requires Closed(node) && b < |node| == |fx.dom| == |fx.val| && b in S && Descends(node, S, level) && node[b].s.Jmp?
      requires FitChain(node, fx, b, common, chain0) && (|chain0| > 0 ==> chain0[|chain0|-1] < |node|)
      requires from < 2 * |node| && Head(node, from) == After(node, b, common, chain0)
      requires |chain0| > 0 ==> from == EdgeOf(node, chain0[|chain0|-1], !common)
      requires forall i {:trigger chain0[i]} :: 0 <= i < |chain0| ==> chain0[i] in S && chain0[i] < |node|
      ensures !ok ==> NoneAfter(node, fx, b, common, v, same, |chain0|)
      ensures ok ==> FitChain(node, fx, b, common, chain) && |chain0| < |chain| && chain[..|chain0|] == chain0
      ensures ok ==> forall i {:trigger chain[i]} :: 0 <= i < |chain| ==> chain[i] in S && chain[i] < |node|
      ensures ok ==> forall j {:trigger NumberIs(fx, chain, v, j)} :: |chain0| <= j < |chain| ==> (NumberIs(fx, chain, v, j) == same <==> j == |chain| - 1)
      ensures ok ==> slot == if |chain| == 1 then from else EdgeOf(node, chain[|chain|-2], !common)
      ensures ok ==> slot < 2 * |node| && Head(node, slot) == chain[|chain|-1] && (atTop <==> |chain| == |chain0| + 1)
    {
      hide FitChain, NumberIs, NoneAfter, Descends, Fits, Closed;
      ok, slot, atTop, chain := true, from, true, chain0;
      AfterIn(node, b, common, chain0, S, level);
      while true
        invariant FitChain(node, fx, b, common, chain) && |chain0| <= |chain| && chain[..|chain0|] == chain0
        invariant forall i {:trigger chain[i]} :: 0 <= i < |chain| ==> chain[i] in S && chain[i] < |node|
        invariant forall j {:trigger NumberIs(fx, chain, v, j)} :: |chain0| <= j < |chain| ==> NumberIs(fx, chain, v, j) != same
        invariant slot == if |chain| == 0 then from else EdgeOf(node, chain[|chain|-1], !common)
        invariant slot < 2 * |node| && Head(node, slot) == After(node, b, common, chain) && (atTop <==> |chain| == |chain0|)
        decreases if 0 <= Head(node, slot) < |level| then level[Head(node, slot)] + 1 else 0
      {
        var cur := Head(node, slot);
        AfterIn(node, b, common, chain, S, level);
        if cur == NIL || node[cur].Succ(common) != node[b].Succ(common) || b !in fx.dom[cur] {
          NotFitting(node, fx, b, common, cur);
          StuckHere(node, fx, b, common, v, same, chain, |chain0|);
          return false, slot, atTop, chain;
        }
        Fitting(node, fx, b, common, cur);
        FitPush(node, fx, b, common, chain, cur);
        CurDown(node, fx, b, common, chain, S, level);
        NumbersPush(fx, chain, cur, v);
        chain := chain + [cur];
        if (fx.val[cur][A_ATOM] == v) == same { return true, slot, atTop, chain; }
        slot, atTop := EdgeOf(node, cur, !common), false;
        Down(node, S, level, cur, !common);
      }
    }

    /** The A number all predecessors of b leave, if there is one. */
    method PredNumber(b: Id) returns (ok: bool, v: nat)
      requires b < |fx.inEdges| && TailsIn(node, fx.inEdges[b], |fx.val|)
      ensures ok ==> PredsAre(node, fx, b, v)
      ensures !ok ==> forall w :: !PredsAre(node, fx, b, w)
    {
      var edges := fx.inEdges[b];
      v := 0;
      if |edges| == 0 { return false, v; }
      v := fx.val[Tail(node, edges[0])][A_ATOM];
      var i := 1;
      while i < |edges|
        invariant 1 <= i <= |edges|
        invariant forall j {:trigger edges[j]} :: 0 <= j < i ==> fx.val[Tail(node, edges[j])][A_ATOM] == v
      {
        if fx.val[Tail(node, edges[i])][A_ATOM] != v { return false, v; }
        i := i + 1;
      }
      return true, v;
    }

    /** Let one edge lead to another block. */
    method SetHead(e: EdgeId, target: Id)
      requires e < 2 * |node|
      modifies `node
      ensures node == Moved(old(node), e, target)
    {
      var b := Tail(node, e);
      if e < |node| {
        node := node[b := node[b].(jt := target)];
      } else {
        node := node[b := node[b].(jf := target)];
      }
    }

    /** Each of the edges that led to b leads to pull. */
    method Retarget(edges: seq<EdgeId>, b: Id, pull: Id)
      requires NoDup(edges) && b != pull && forall i {:trigger edges[i]} :: 0 <= i < |edges| ==> edges[i] < 2 * |node| && Head(node, edges[i]) == b
      modifies `node
      ensures Retargeted(old(node), node, edges, |edges|, b, pull)
    {
      hide NoDup;
      var i := 0;
      while i < |edges|
        invariant 0 <= i <= |edges| && Retargeted(old(node), node, edges, i, b, pull)
      {
        RetargetedNext(old(node), node, edges, i, b, pull);
        var x := Tail(node, edges[i]);
        if node[x].jt == b {
          node := node[x := node[x].(jt := pull)];
        } else {
          node := node[x := node[x].(jf := pull)];
        }
        i := i + 1;
      }
    }

    /** Look for a chain to pull from: the slots that lead to the block that differs and to the one to pull. */
    method FindPull(b: Id, common: bool, ghost root: Id, ghost S: set<Id>, ghost level: seq<nat>)
      returns (ok: bool, slot: EdgeId, slot2: EdgeId, atTop: bool, ghost v: nat, ghost chain: seq<Id>, ghost k: nat)
      requires Current(node, fx, root, S, level) && b in S && b < |node| && node[b].s.Jmp?
      ensures b < |node| == |fx.dom|
      ensures !ok ==> NothingWanted(node, fx, b, common)
      ensures ok ==> PredsAre(node, fx, b, v) && Wanted(node, fx, b, common, v, chain, k) && b != root
      ensures ok ==> forall i {:trigger chain[i]} :: 0 <= i < |chain| ==> chain[i] in S && chain[i] < |node|
      ensures ok ==> k < |chain| - 1 && (atTop <==> k == 0) && slot < 2 * |node| && slot2 == EdgeOf(node, chain[|chain|-2], !common)
      ensures ok ==> Head(node, slot) == chain[k] && Head(node, slot2) == chain[|chain|-1] && (k > 0 ==> slot == EdgeOf(node, chain[k-1], !common))
    {
      hide BlockDominates, IsReach, Descends, Entering, Wanted, NothingWanted, NoneAfter, FitChain, NumberIs, Current;
      slot, slot2, atTop, v, chain, k := 0, 0, true, 0, [], 0;
      CurrentFacts(node, fx, root, S, level, b);
      var n;
      ok, n := PredNumber(b);
      v := n;
      if !ok {
        NoPredNumber(node, fx, b, common);
        return;
      }
      var p0 := Tail(node, fx.inEdges[b][0]);
      var top := EdgeOf(node, p0, node[p0].jt == b);
      TopEdge(node, fx, root, S, level, b);
      ghost var chain1;
      EmptyFits(node, fx, b, common);
      ok, slot, atTop, chain1 := Search(b, common, n, false, top, [], S, level);
      if !ok {
        NoneDiffers(node, fx, b, common, n);
        return;
      }
      var diff, next := Head(node, slot), false;
      ok, slot2, next, chain := Search(b, common, n, true, EdgeOf(node, diff, !common), chain1, S, level);
      if !ok {
        NoneReturns(node, fx, b, common, n, chain1);
        return;
      }
      k := |chain1| - 1;
      WantedHere(node, fx, b, common, n, chain1, chain);
      assert chain[k] == chain1[k] && (k > 0 ==> chain[k-1] == chain1[k-1]);
    }

    /** Pull up the first block of the chain from b that tests the predecessors' value again, if another
        block tests a different value before it. */
    method PullupChain(b: Id, common: bool, ghost root: Id, ghost S: set<Id>, ghost level: seq<nat>)
      returns (moved: bool, ghost chain: seq<Id>, ghost k: nat)
      requires Current(node, fx, root, S, level) && b in S && b < |node| && node[b].s.Jmp?
      modifies `node
      ensures b < |old(node)| == |fx.dom|
      ensures !moved ==> node == old(node) && NothingWanted(node, fx, b, common)
      ensures moved ==> PullOf(old(node), node, fx, root, S, level, b, common, chain, k)
    {
      hide BlockDominates, IsReach, Descends, Entering, Wanted, NothingWanted, PullSafe, NumberIs, Respliced, Retargeted, Pulled, Found, PredsAre;
      var slot, slot2, atTop;
      ghost var v, g := 0, node;
      moved, slot, slot2, atTop, v, chain, k := FindPull(b, common, root, S, level);
      if !moved { return; }
      var diff, pull := Head(node, slot), Head(node, slot2);
      WantedFound(g, fx, root, S, level, b, common, v, chain, k);
      SetHead(slot2, node[pull].Succ(!common));
      SetHead(EdgeOf(node, pull, !common), diff);
      ResplicedIs(g, common, chain, k);
      if atTop {
        TopPreds(g, fx, root, S, level, b, common, chain);
        Retarget(fx.inEdges[b], b, pull);
        PulledTop(g, node, root, S, level, b, common, chain, fx.inEdges);
      } else {
        SetHead(slot, pull);
        PulledInside(g, root, S, level, b, common, chain, k);
      }
      PullIs(g, node, fx, root, S, level, b, common, chain, k, v);
    }

    /** or_pullup: the chain of blocks that share their true branch. */
    method OrPullup(b: Id, ghost root: Id, ghost S: set<Id>, ghost level: seq<nat>) returns (moved: bool, ghost chain: seq<Id>, ghost k: nat)
      requires Current(node, fx, root, S, level) && b in S && b < |node| && node[b].s.Jmp?
      modifies `node
      ensures b < |old(node)| == |fx.dom|
      ensures !moved ==> node == old(node) && NothingWanted(node, fx, b, true)
      ensures moved ==> PullOf(old(node), node, fx, root, S, level, b, true, chain, k)
    {
      moved, chain, k := PullupChain(b, true, root, S, level);
    }

    /** and_pullup: the chain of blocks that share their false branch. */
    method AndPullup(b: Id, ghost root: Id, ghost S: set<Id>, ghost level: seq<nat>) returns (moved: bool, ghost chain: seq<Id>, ghost k: nat)
      requires Current(node, fx, root, S, level) && b in S && b < |node| && node[b].s.Jmp?
      modifies `node
      ensures b < |old(node)| == |fx.dom|
      ensures !moved ==> node == old(node) && NothingWanted(node, fx, b, false)
      ensures moved ==> PullOf(old(node), node, fx, root, S, level, b, false, chain, k)
    {
      moved, chain, k := PullupChain(b, false, root, S, level);
    }
  }

  ghost predicate NothingWanted(g: Graph, fx: Facts, b: Id, common: bool)
    requires b < |g| == |fx.dom|
  {
    forall v: nat, x, i: nat {:trigger Wanted(g, fx, b, common, v, x, i)} :: PredsAre(g, fx, b, v) ==> !Wanted(g, fx, b, common, v, x, i)
  }

  lemma {:induction false} NoPredNumber(g: Graph, fx: Facts, b: Id, common: bool)
    requires b < |g| == |fx.dom| && forall w :: !PredsAre(g, fx, b, w)
    ensures NothingWanted(g, fx, b, common)
  {
  }

  lemma {:induction false} OnePredNumber(g: Graph, fx: Facts, b: Id, v: nat, w: nat)
    requires PredsAre(g, fx, b, v) && PredsAre(g, fx, b, w)
    ensures v == w
  {
    assert fx.val[Tail(g, fx.inEdges[b][0])][A_ATOM] == v;
  }

  lemma {:induction false} NoneDiffers(g: Graph, fx: Facts, b: Id, common: bool, v: nat)
    requires b < |g| == |fx.dom| && PredsAre(g, fx, b, v) && NoneAfter(g, fx, b, common, v, false, 0)
    ensures NothingWanted(g, fx, b, common)
  {
    hide FitChain, NumberIs, PredsAre;
    forall w: nat, x, i: nat | PredsAre(g, fx, b, w) ensures !Wanted(g, fx, b, common, w, x, i) {
      OnePredNumber(g, fx, b, v, w);
      if i < |x| && NumberIs(fx, x, v, i) {}
    }
  }

  /** The first block whose number differs is the same on every chain. */
  lemma {:induction false} FirstDiffers(g: Graph, fx: Facts, b: Id, common: bool, v: nat, chain1: seq<Id>, x: seq<Id>, i: nat)
    requires b < |g| == |fx.dom| && FitChain(g, fx, b, common, chain1) && Wanted(g, fx, b, common, v, x, i)
    requires |chain1| > 0 && forall j {:trigger NumberIs(fx, chain1, v, j)} :: 0 <= j < |chain1| ==> (NumberIs(fx, chain1, v, j) == false <==> j == |chain1| - 1)
    ensures i == |chain1| - 1
  {
    hide FitChain;
    var l := |chain1| - 1;
    var n := if i < l then i else l;
    ChainsAgree(g, fx, b, common, x, chain1, n);
    assert NumberIs(fx, chain1, v, n) == NumberIs(fx, x, v, n);
    assert !NumberIs(fx, x, v, i);
  }

  lemma {:induction false} NoneReturns(g: Graph, fx: Facts, b: Id, common: bool, v: nat, chain1: seq<Id>)
    requires b < |g| == |fx.dom| && PredsAre(g, fx, b, v) && NoneAfter(g, fx, b, common, v, true, |chain1|) && FitChain(g, fx, b, common, chain1)
    requires |chain1| > 0 && forall j {:trigger NumberIs(fx, chain1, v, j)} :: 0 <= j < |chain1| ==> (NumberIs(fx, chain1, v, j) == false <==> j == |chain1| - 1)
    ensures NothingWanted(g, fx, b, common)
  {
    hide FitChain, PredsAre, NumberIs;
    forall w: nat, x, i: nat | PredsAre(g, fx, b, w) ensures !Wanted(g, fx, b, common, w, x, i) {
      OnePredNumber(g, fx, b, v, w);
      if |x| > 0 && NumberIs(fx, x, v, |x| - 1) {}
      if Wanted(g, fx, b, common, v, x, i) { FirstDiffers(g, fx, b, common, v, chain1, x, i); }
    }
  }

  lemma {:induction false} WantedHere(g: Graph, fx: Facts, b: Id, common: bool, v: nat, chain1: seq<Id>, chain: seq<Id>)
    requires b < |g| == |fx.dom| && 0 < |chain1| < |chain| && chain[..|chain1|] == chain1 && FitChain(g, fx, b, common, chain)
    requires forall j {:trigger NumberIs(fx, chain1, v, j)} :: 0 <= j < |chain1| ==> (NumberIs(fx, chain1, v, j) == false <==> j == |chain1| - 1)
    requires forall j {:trigger NumberIs(fx, chain, v, j)} :: |chain1| <= j < |chain| ==> (NumberIs(fx, chain, v, j) == true <==> j == |chain| - 1)
    ensures Wanted(g, fx, b, common, v, chain, |chain1| - 1)
  {
    hide FitChain;
    forall j | 0 <= j < |chain| ensures NumberIs(fx, chain, v, j) <==> j < |chain1| - 1 || j == |chain| - 1 {
      if j < |chain1| {
        assert chain[j] == chain[..|chain1|][j] == chain1[j];
        assert NumberIs(fx, chain, v, j) == NumberIs(fx, chain1, v, j);
      }
    }
  }

  lemma {:induction false} WantedFound(g: Graph, fx: Facts, root: Id, S: set<Id>, level: seq<nat>, b: Id, common: bool, v: nat, chain: seq<Id>, k: nat)
    requires Current(g, fx, root, S, level) && b < |g| && g[b].s.Jmp? && b in S && Wanted(g, fx, b, common, v, chain, k)
    requires forall i {:trigger chain[i]} :: 0 <= i < |chain| ==> chain[i] in S && chain[i] < |g|
    ensures Found(g, root, S, level, b, common, chain, k) && k < |chain| - 1
    ensures chain[|chain|-1] < |g| && chain[|chain|-2] < |g| && 0 <= g[chain[|chain|-1]].Succ(!common) && (k > 0 ==> chain[k-1] < |g|)
    ensures chain[k] < |level| && g[chain[|chain|-1]].s.Jmp? && chain[|chain|-1] != chain[|chain|-2]
  {
    hide BlockDominates, IsReach, NumberIs, Entering;
    Down(g, S, level, b, common);
    forall i | 0 <= i < |chain| ensures LinkAt(g, S, b, common, chain[i]) && (0 < i ==> BlockDominates(g, root, b, chain[i])) {
      assert Fits(g, fx, b, common, chain[i]);
    }
    assert Chain(g, S, b, common, chain);
    NotLast(g, root, S, level, b, common, chain, k, |chain| - 2);
    FoundFacts(g, root, S, level, b, common, chain, k, |chain| - 1);
    Down(g, S, level, chain[|chain|-1], !common);
  }

  lemma {:induction false} ResplicedIs(g: Graph, common: bool, chain: seq<Id>, k: nat)
    requires 1 < |chain| && k < |chain| && chain[|chain|-1] < |g| && chain[|chain|-2] < |g| && 0 <= g[chain[|chain|-1]].Succ(!common)
    ensures var pull := chain[|chain|-1];
      Respliced(g, common, chain, k) == Moved(Moved(g, EdgeOf(g, chain[|chain|-2], !common), g[pull].Succ(!common)), EdgeOf(g, pull, !common), chain[k])
  {
  }

  lemma {:induction false} EmptyFits(g: Graph, fx: Facts, b: Id, common: bool)
    requires b < |g| == |fx.dom|
    ensures FitChain(g, fx, b, common, [])
  {
  }

  lemma {:induction false} CurrentFacts(g: Graph, fx: Facts, root: Id, S: set<Id>, level: seq<nat>, b: Id)
    requires Current(g, fx, root, S, level) && b in S && b < |g|
    ensures Closed(g) && Descends(g, S, level) && |fx.inEdges| == |fx.dom| == |fx.val| == |g| == |level| && TailsIn(g, fx.inEdges[b], |fx.val|)
  {
    hide BlockDominates;
    forall i | 0 <= i < |fx.inEdges[b]| ensures fx.inEdges[b][i] < 2 * |g| && Tail(g, fx.inEdges[b][i]) < |g| {
    }
  }

  /** The edges listed for b do lead to it, and b is not the root. */
  lemma {:induction false} TopEdge(g: Graph, fx: Facts, root: Id, S: set<Id>, level: seq<nat>, b: Id)
    requires Current(g, fx, root, S, level) && b in S && b < |g| == |fx.inEdges| && |fx.inEdges[b]| > 0
    ensures b != root && fx.inEdges[b][0] < 2 * |g|
    ensures var p0 := Tail(g, fx.inEdges[b][0]); Head(g, EdgeOf(g, p0, g[p0].jt == b)) == b
  {
    hide BlockDominates, IsReach;
    var e := fx.inEdges[b][0];
    assert EntersAt(g, S, fx.inEdges, b, e);
    var p0 := Tail(g, e);
    assert g[p0].s.Jmp?;
    NotRoot(g, root, S, level, p0, e < |g|);
  }

  /** No reachable edge leads back to the root. */
  lemma {:induction false} NotRoot(g: Graph, root: Id, S: set<Id>, level: seq<nat>, x: Id, side: bool)
    requires Descends(g, S, level) && IsReach(g, root, S) && x in S && x < |g| && g[x].s.Jmp?
    ensures g[x].Succ(side) != root
  {
    var p := ReachPath(g, root, S, x);
    FallsFromRoot(g, root, S, level, p);
    Down(g, S, level, x, side);
  }

  lemma {:induction false} FallsFromRoot(g: Graph, root: Id, S: set<Id>, level: seq<nat>, p: seq<Id>)
    requires Descends(g, S, level) && root in S && RootPath(g, root, p)
    ensures p[|p|-1] in S && level[p[|p|-1]] <= level[root]
    decreases |p|
  {
    if |p| > 1 {
      FallsFromRoot(g, root, S, level, p[..|p|-1]);
      var y := p[|p|-2];
      Down(g, S, level, y, p[|p|-1] == g[y].jt);
    }
  }

  /** The edges to move at the top leave blocks outside the chain. */
  lemma {:induction false} TopPreds(g: Graph, fx: Facts, root: Id, S: set<Id>, level: seq<nat>, b: Id, common: bool, chain: seq<Id>)
    requires Current(g, fx, root, S, level) && b < |g| && Found(g, root, S, level, b, common, chain, 0) && 1 < |chain|
    requires chain[|chain|-1] < |g| && chain[|chain|-2] < |g| && 0 <= g[chain[|chain|-1]].Succ(!common) && chain[|chain|-1] != chain[|chain|-2]
    ensures b < |fx.inEdges| && NoDup(fx.inEdges[b]) && b != chain[|chain|-1] && |Respliced(g, common, chain, 0)| == |g|
    ensures forall i {:trigger fx.inEdges[b][i]} :: 0 <= i < |fx.inEdges[b]| ==>
      fx.inEdges[b][i] < 2 * |g| && Head(Respliced(g, common, chain, 0), fx.inEdges[b][i]) == b
  {
    hide BlockDominates, IsReach, Respliced, Chain, Found;
    FoundFacts(g, root, S, level, b, common, chain, 0, |chain| - 1);
    FoundFacts(g, root, S, level, b, common, chain, 0, 0);
    ResplicedAt(g, common, chain, 0, b);
    forall i | 0 <= i < |fx.inEdges[b]| ensures fx.inEdges[b][i] < 2 * |g| && Head(Respliced(g, common, chain, 0), fx.inEdges[b][i]) == b {
      var e := fx.inEdges[b][i];
      assert e < 2 * |g|;
      assert EntersAt(g, S, fx.inEdges, b, e);
      EnterTop(g, root, S, level, b, common, chain, fx.inEdges, Tail(g, e), e < |g|);
      ResplicedAt(g, common, chain, 0, Tail(g, e));
    }
  }

  // Every predecessor of b leaves the number v in A, and there is one.
  predicate PredsAre(g: Graph, fx: Facts, b: Id, v: nat) {
    && b < |fx.inEdges| && |fx.inEdges[b]| > 0 && TailsIn(g, fx.inEdges[b], |fx.val|)
    && forall j {:trigger fx.inEdges[b][j]} :: 0 <= j < |fx.inEdges[b]| ==> fx.val[Tail(g, fx.inEdges[b][j])][A_ATOM] == v
  }

  /** The next block, if any, is in the graph. */
  lemma {:induction false} AfterIn(g: Graph, b: Id, common: bool, chain: seq<Id>, S: set<Id>, level: seq<nat>)
    requires Closed(g) && b < |g| && Descends(g, S, level) && (|chain| > 0 ==> chain[|chain|-1] < |g|)
    ensures After(g, b, common, chain) < |g| == |level|
  {
    if |chain| > 0 && g[chain[|chain|-1]].s.Jmp? {}
  }

  lemma {:induction false} NotFitting(g: Graph, fx: Facts, b: Id, common: bool, c: Ref)
    requires b < |g| == |fx.dom| && c < |g|
    requires c == NIL || g[c].Succ(common) != g[b].Succ(common) || b !in fx.dom[c]
    ensures !Fits(g, fx, b, common, c)
  {
  }

  lemma {:induction false} Fitting(g: Graph, fx: Facts, b: Id, common: bool, c: Ref)
    requires b < |g| == |fx.dom| && 0 <= c < |g| && g[c].Succ(common) == g[b].Succ(common) && b in fx.dom[c]
    ensures Fits(g, fx, b, common, c)
  {
  }

  lemma {:induction false} FitPush(g: Graph, fx: Facts, b: Id, common: bool, chain: seq<Id>, c: Id)
    requires b < |g| == |fx.dom| && FitChain(g, fx, b, common, chain) && (|chain| > 0 ==> chain[|chain|-1] < |g|)
    requires c == After(g, b, common, chain) && Fits(g, fx, b, common, c)
    ensures FitChain(g, fx, b, common, chain + [c])
  {
    var x := chain + [c];
    forall i | 0 <= i < |x| - 1 ensures NextAt(g, common, x, i) {
      if i < |chain| - 1 { assert NextAt(g, common, chain, i); }
    }
  }

  /** The next block is reachable and branches. */
  lemma {:induction false} CurDown(g: Graph, fx: Facts, b: Id, common: bool, chain: seq<Id>, S: set<Id>, level: seq<nat>)
    requires Closed(g) && b < |g| == |fx.dom| && b in S && Descends(g, S, level) && g[b].s.Jmp?
    requires FitChain(g, fx, b, common, chain) && forall i {:trigger chain[i]} :: 0 <= i < |chain| ==> chain[i] in S && chain[i] < |g|
    requires Fits(g, fx, b, common, After(g, b, common, chain))
    ensures var c := After(g, b, common, chain); c in S && c < |g| && g[c].s.Jmp?
  {
    Down(g, S, level, b, common);
    if |chain| > 0 {
      var d := chain[|chain|-1];
      assert Fits(g, fx, b, common, d);
      Down(g, S, level, d, !common);
    }
  }

  lemma {:induction false} NumbersPush(fx: Facts, chain: seq<Id>, c: Id, v: nat)
    requires c < |fx.val|
    ensures forall j {:trigger NumberIs(fx, chain + [c], v, j)} :: 0 <= j <= |chain| ==>
      (NumberIs(fx, chain + [c], v, j) == if j < |chain| then NumberIs(fx, chain, v, j) else fx.val[c][A_ATOM] == v)
  {
  }
}
