/** Merging equal blocks. */
module Intern {
  import opened Bpf
  import opened Blocks
  import opened Layout
  import opened Reach
  import Walks

  /** Same branch, same successors, same statements up to NOPs. */
  predicate EqNode(x: Node, y: Node) {
    x.s == y.s && x.jt == y.jt && x.jf == y.jf && Live(x.stmts) == Live(y.stmts)
  }

  lemma {:induction false} EqNodeLand(x: Node, y: Node, st: State, p: Packet)
    requires EqNode(x, y)
    ensures Land(x, st, p) == Land(y, st, p)
  {
    ExecLive(x.stmts, st, p);
    ExecLive(y.stmts, st, p);
  }

  lemma {:induction false} EqNodeRun(g: Graph, x: Id, y: Id, st: State, p: Packet, fuel: nat)
    requires Closed(g) && x < |g| && y < |g| && EqNode(g[x], g[y])
    ensures Run(g, x, st, p, fuel) == Run(g, y, st, p, fuel)
  {
    EqNodeLand(g[x], g[y], st, p);
  }

  // Where an edge to x leads after one round.
  function Fwd(link: seq<Ref>, x: Ref): Ref
    requires x < |link|
  {
    if x == NIL || link[x] == NIL then x else link[x]
  }

  /** Links lead to later, equal blocks that are not themselves linked. */
  predicate LinksTo(g: Graph, link: seq<Ref>) {
    && |link| == |g|
    && forall x {:trigger link[x]} :: 0 <= x < |g| && link[x] != NIL ==>
      x < link[x] < |g| && link[link[x]] == NIL && EqNode(g[x], g[link[x]])
  }

  function Forwarded(n: Node, link: seq<Ref>): Node
    requires n.jt < |link| && n.jf < |link|
  {
    n.(jt := Fwd(link, n.jt), jf := Fwd(link, n.jf))
  }

  predicate Redirected(g: Graph, g': Graph, link: seq<Ref>) {
    |g| == |g'| == |link| && Closed(g) && forall b {:trigger g'[b]} :: 0 <= b < |g| ==> g'[b] == Forwarded(g[b], link)
  }

  lemma {:induction false} RedirectedClosed(g: Graph, g': Graph, link: seq<Ref>)
    requires Redirected(g, g', link) && LinksTo(g, link)
    ensures Closed(g')
  {
  }

  /** Following a link never changes the outcome of a run, not even the number of blocks it visits. */
  lemma {:induction false} RedirectedRun(g: Graph, g': Graph, link: seq<Ref>, b: Id, st: State, p: Packet, fuel: nat)
    requires Redirected(g, g', link) && LinksTo(g, link) && Closed(g') && b < |g|
    ensures Run(g', b, st, p, fuel) == Run(g, b, st, p, fuel)
    decreases fuel
  {
    hide Exec;
    var l := Land(g[b], st, p);
    if fuel != 0 && l.Next? {
      var c := g[b].Succ(l.side);
      RedirectedRun(g, g', link, Fwd(link, c), l.st, p, fuel - 1);
      if link[c] != NIL { EqNodeRun(g, c, link[c], l.st, p, fuel - 1); }
    }
  }

  function Sum(g: Graph): int {
    if |g| == 0 then 0 else Sum(g[..|g|-1]) + g[|g|-1].jt + g[|g|-1].jf
  }

  lemma {:induction false} SumBound(g: Graph, n: nat)
    requires forall b :: 0 <= b < |g| ==> g[b].jt < n && g[b].jf < n
    ensures Sum(g) <= 2 * n * |g|
  {
    if |g| != 0 {
      SumBound(g[..|g|-1], n);
      assert 2 * n * |g| == 2 * n * (|g| - 1) + 2 * n;
    }
  }

  /** Successor indices never drop in a round, and their sum rises if any edge moves. */
  lemma {:induction false} SumRises(g: Graph, g': Graph, n: nat)
    requires |g| == |g'| <= n
    requires forall b :: 0 <= b < |g| ==> g[b].jt <= g'[b].jt && g[b].jf <= g'[b].jf
    ensures Sum(g) <= Sum(g')
    ensures (exists b :: 0 <= b < |g| && (g[b].jt != g'[b].jt || g[b].jf != g'[b].jf)) ==> Sum(g) < Sum(g')
  {
    if |g| != 0 {
      SumRises(g[..|g|-1], g'[..|g|-1], n);
      if exists b :: 0 <= b < |g| && (g[b].jt != g'[b].jt || g[b].jf != g'[b].jf) {
        var b :| 0 <= b < |g| && (g[b].jt != g'[b].jt || g[b].jf != g'[b].jf);
        if b < |g| - 1 { assert g[..|g|-1][b] == g[b] && g'[..|g|-1][b] == g'[b]; }
      }
    }
  }

  /** Levels that are exactly one more than the deeper successor. */
  predicate Exact(g: Graph, lv: Levels) {
    && Leveled(g, lv)
    && forall b {:trigger ExactAt(g, lv, b)} :: 0 <= b < |g| ==> ExactAt(g, lv, b)
  }

  predicate ExactAt(g: Graph, lv: Levels, b: Id)
    requires Leveled(g, lv) && b < |g|
  {
    lv[b] == if g[b].s.Jmp? then 1 + (if lv[g[b].jt] < lv[g[b].jf] then lv[g[b].jf] else lv[g[b].jt]) else 0
  }

  /** The longest distance of a block to a leaf. */
  ghost function Depth(g: Graph, lv: Levels, b: Id): nat
    requires Leveled(g, lv) && b < |g|
    decreases lv[b]
  {
    if g[b].s.Jmp? then
      1 + (if Depth(g, lv, g[b].jt) < Depth(g, lv, g[b].jf) then Depth(g, lv, g[b].jf) else Depth(g, lv, g[b].jt))
    else 0
  }

  ghost function Depths(g: Graph, lv: Levels): (r: Levels)
    requires Leveled(g, lv)
    ensures |r| == |g| && forall b {:trigger r[b]} :: 0 <= b < |g| ==> r[b] == Depth(g, lv, b)
  {
    seq(|g|, b requires 0 <= b < |g| => Depth(g, lv, b))
  }

  /** Every acyclic graph has exact levels. */
  lemma {:induction false} DepthsExact(g: Graph, lv: Levels)
    requires Leveled(g, lv)
    ensures Exact(g, Depths(g, lv))
  {
  }

  /** Exact levels stay exact when edges move to equal blocks. */
  lemma {:induction false} RedirectedExact(g: Graph, g': Graph, link: seq<Ref>, lv: Levels)
    requires Redirected(g, g', link) && LinksTo(g, link) && Exact(g, lv)
    ensures Exact(g', lv)
  {
    RedirectedClosed(g, g', link);
    forall x | 0 <= x < |g| && link[x] != NIL ensures lv[link[x]] == lv[x] {
      assert ExactAt(g, lv, x) && ExactAt(g, lv, link[x]);
    }
    forall b | 0 <= b < |g| ensures g'[b].s.Jmp? ==> lv[g'[b].jt] < lv[b] && lv[g'[b].jf] < lv[b] {
      assert ExactAt(g, lv, b);
      assert g'[b] == Forwarded(g[b], link);
    }
    forall b | 0 <= b < |g| ensures ExactAt(g', lv, b) {
      assert ExactAt(g, lv, b);
      assert g'[b] == Forwarded(g[b], link);
    }
  }

  lemma {:induction false} LiveSkip(ss: seq<Stmt>, i: nat)
    requires i < |ss|
    ensures Live(ss[i..]) == (if ss[i].Nop? then [] else [ss[i]]) + Live(ss[i+1..])
  {
    assert ss[i..][1..] == ss[i+1..];
  }

  predicate SameFrom(x: seq<Stmt>, y: seq<Stmt>, i: nat, j: nat)
    requires i <= |x| && j <= |y|
  {
    Live(x) == Live(y) <==> Live(x[i..]) == Live(y[j..])
  }

  /** Walk two statement lists side by side, skipping NOPs. */
  method EqSlist(x: seq<Stmt>, y: seq<Stmt>) returns (eq: bool)
    ensures eq <==> Live(x) == Live(y)
  {
    var i, j := 0, 0;
    while true
      invariant i <= |x| && j <= |y|
      invariant SameFrom(x, y, i, j)
      decreases |x| - i + |y| - j
    {
      while i < |x| && x[i].Nop?
        invariant i <= |x| && SameFrom(x, y, i, j)
      {
        LiveSkip(x, i);
        i := i + 1;
      }
      while j < |y| && y[j].Nop?
        invariant j <= |y| && SameFrom(x, y, i, j)
      {
        LiveSkip(y, j);
        j := j + 1;
      }
      if i < |x| { LiveSkip(x, i); }
      if j < |y| { LiveSkip(y, j); }
      if i == |x| { return j == |y|; }
      if j == |y| { return false; }
      if x[i] != y[j] {
        assert ([x[i]] + Live(x[i+1..]))[0] == x[i];
        return false;
      }
      assert Live(x[i..])[1..] == Live(x[i+1..]) && Live(y[j..])[1..] == Live(y[j+1..]);
      i, j := i + 1, j + 1;
    }
  }

  method EqBlk(x: Node, y: Node) returns (eq: bool)
    ensures eq <==> EqNode(x, y)
  {
    if x.s == y.s && x.jt == y.jt && x.jf == y.jf {
      eq := EqSlist(x.stmts, y.stmts);
    } else {
      eq := false;
    }
  }

  /** Every reached block but the root has a reached predecessor. */
  lemma {:induction false} ReachPred(g: Graph, root: Id, R: set<Id>, x: Id) returns (b: Id)
    requires IsReach(g, root, R) && x in R && x != root
    ensures b in R && b < |g| && x in SuccSet(g, b)
  {
    if forall b :: b in R ==> x !in SuccSet(g, b) {
      assert ClosedUnder(g, R - {x});
      assert false;
    }
    b :| b in R && x in SuccSet(g, b);
  }

  /** No two distinct blocks reached from the root are equal. */
  ghost predicate Shared(g: Graph, root: Id) {
    forall R: set<Id> :: IsReach(g, root, R) ==>
      forall x, y :: x in R && y in R && x != y ==> x < |g| && y < |g| && !EqNode(g[x], g[y])
  }

  lemma {:induction false} EqNodeLevel(g: Graph, lv: Levels, x: Id, y: Id)
    requires Exact(g, lv) && x < |g| && y < |g|
    ensures EqNode(g[x], g[y]) ==> lv[x] == lv[y]
  {
    assert ExactAt(g, lv, x) && ExactAt(g, lv, y);
  }

  // When no edge moves, no successor has a link.
  lemma {:induction false} NotLinked(g: Graph, link: seq<Ref>, b: Id, x: Id)
    requires LinksTo(g, link) && Redirected(g, g, link) && b < |g| && x in SuccSet(g, b)
    ensures x < |g| && link[x] == NIL
  {
    assert g[b] == Forwarded(g[b], link);
  }

  lemma {:induction false} SettledShared(g: Graph, link: seq<Ref>, lv: Levels, root: Id, R: set<Id>)
    requires Exact(g, lv) && IsReach(g, root, R) && LinksTo(g, link) && Redirected(g, g, link)
    requires forall x, y :: 0 <= x < y < |g| && x in R && y in R && EqNode(g[x], g[y]) ==> link[x] != NIL
    ensures Shared(g, root)
  {
    forall x, y | x in R && y in R && x < y ensures y < |g| && !EqNode(g[x], g[y]) {
      if x == root {
        ReachBelow(g, lv, root, R, y);
        EqNodeLevel(g, lv, x, y);
      } else {
        var b := ReachPred(g, root, R, x);
        NotLinked(g, link, b, x);
      }
    }
    forall T: set<Id> | IsReach(g, root, T) ensures T == R {
    }
  }

  predicate Bounded(g: Graph) { Closed(g) && Sum(g) <= 2 * |g| * |g| }

  lemma {:induction false} ClosedBounded(g: Graph)
    requires Closed(g)
    ensures Bounded(g)
  {
    SumBound(g, |g|);
  }

  lemma {:induction false} ExactLeveled(g: Graph, lv: Levels)
    requires Exact(g, lv)
    ensures Leveled(g, lv)
  {
  }

  ghost predicate SameRuns(g: Graph, g': Graph) {
    && Closed(g) && Closed(g') && |g| == |g'|
    && forall b: Id, st: State, p, fuel: nat :: b < |g| ==> Run(g', b, st, p, fuel) == Run(g, b, st, p, fuel)
  }

  /** One round keeps every run and, if it moves an edge, raises the sum of successor indices. */
  lemma {:induction false} Round(g: Graph, g': Graph, link: seq<Ref>, lv: Levels, changed: bool)
    requires Redirected(g, g', link) && LinksTo(g, link) && Exact(g, lv)
    requires changed <==> exists b :: 0 <= b < |g| && g'[b] != g[b]
    ensures Closed(g') && Exact(g', lv) && Bounded(g') && SameRuns(g, g') && Walks.SameBlocks(g, g')
    ensures if changed then Sum(g) < Sum(g') else g' == g
  {
    RedirectedClosed(g, g', link);
    RedirectedExact(g, g', link, lv);
    ClosedBounded(g');
    forall b: Id, st: State, p, fuel: nat | b < |g| ensures Run(g', b, st, p, fuel) == Run(g, b, st, p, fuel) {
      RedirectedRun(g, g', link, b, st, p, fuel);
    }
    SumRises(g, g', |g|);
  }

  /** Linking i to what j is linked to, or to j itself. */
  lemma {:induction false} LinkAdded(g: Graph, link: seq<Ref>, link': seq<Ref>, i: Id, j: Id)
    requires LinksTo(g, link) && i < j < |g| && EqNode(g[i], g[j])
    requires forall x :: 0 <= x <= i ==> link[x] == NIL
    requires link' == link[i := if link[j] != NIL then link[j] else j]
    ensures LinksTo(g, link')
  {
    assert link[j] != NIL ==> EqNode(g[j], g[link[j]]);
  }

  lemma {:induction false} NoLinks(g: Graph, link: seq<Ref>)
    requires |link| == |g| && forall x :: 0 <= x < |link| ==> link[x] == NIL
    ensures LinksTo(g, link)
  {
  }

  class Interner {
    var node: Graph
    var mark: seq<bool>
    var link: seq<Ref>

    ghost predicate Valid()
      reads this
    {
      |node| == |mark| == |link| && Closed(node)
    }

    constructor (g: Graph)
      requires Closed(g)
      ensures Valid() && node == g
    {
      node, mark, link := g, seq(|g|, _ => false), seq(|g|, _ => NIL);
    }

    ghost function Marked(): (M: set<Id>)
      reads this
      ensures forall b :: b in M <==> 0 <= b < |mark| && mark[b]
    {
      set b | 0 <= b < |mark| && mark[b]
    }

    method MarkBlock(p: Id)
      requires Valid() && p < |node|
      modifies `mark
      ensures Valid() && Marked() == old(Marked()) + {p}
    {
      mark := mark[p := true];
    }

    method MakeMarks(p: Id, ghost lv: Levels, ghost done: seq<Id>)
      requires Valid() && Leveled(node, lv) && p < |node|
      requires Ordered(node, done) && Agrees(Marked(), lv, p, done)
      modifies `mark
      ensures Valid() && Marked() == old(Marked()) + Elems(Visit(node, lv, p, done, true))
      decreases lv[p]
    {
      hide Agrees, Ordered, Elems, Visit, Marked;
      ghost var M := Marked();
      if mark[p] {
        VisitNothing(node, lv, M, p, done, true);
        return;
      }
      ghost var d, e := Unfold(node, lv, M, p, done, true);
      MarkBlock(p);
      if node[p].s.Jmp? {
        MakeMarks(node[p].jt, lv, done);
        MakeMarks(node[p].jf, lv, d);
      } else {
        LeafVisits(node, lv, M, p, done);
      }
    }

    /** Mark exactly the blocks reached from root. */
    method MarkCode(root: Id, ghost lv: Levels)
      requires Valid() && Leveled(node, lv) && root < |node|
      modifies `mark
      ensures Valid() && IsReach(node, root, Marked())
    {
      mark := seq(|node|, _ => false);
      assert Marked() == {};
      MakeMarks(root, lv, []);
      VisitReach(node, lv, root, true);
      assert Marked() == Elems(Visit(node, lv, root, [], true));
    }

    /** The first marked block after i that is equal to it. */
    method NextEqual(i: Id) returns (j: nat)
      requires Valid() && i < |node|
      ensures i < j <= |node| && (j < |node| ==> mark[j] && EqNode(node[i], node[j]))
      ensures forall y :: i < y < j && mark[y] ==> !EqNode(node[i], node[y])
    {
      j := i + 1;
      while j < |node|
        invariant i < j <= |node|
        invariant forall y :: i < y < j && mark[y] ==> !EqNode(node[i], node[y])
      {
        if mark[j] {
          var eq := EqBlk(node[i], node[j]);
          if eq { return; }
        }
        j := j + 1;
      }
    }

    // Every block from i on that has a later equal block is linked.
    ghost predicate Found(i: int)
      requires Valid()
      reads this
    {
      forall x, y :: 0 <= x < y < |node| && i <= x && mark[x] && mark[y] && EqNode(node[x], node[y]) ==> link[x] != NIL
    }

    /** Link each marked block to the last of the marked blocks equal to it. */
    method FindLinks()
      requires Valid()
      modifies `link
      ensures Valid() && LinksTo(node, link) && Found(0)
    {
      hide EqNode, Closed, LinksTo;
      link := seq(|node|, _ => NIL);
      NoLinks(node, link);
      var i := |node| - 1;
      while i > 0
        invariant i < |node| && (|node| > 0 ==> 0 <= i) && Valid() && LinksTo(node, link)
        invariant forall x :: 0 <= x < i ==> link[x] == NIL
        invariant Found(i)
      {
        i := i - 1;
        if mark[i] {
          var j := NextEqual(i);
          if j < |node| {
            ghost var before := link;
            link := link[i := if link[j] != NIL then link[j] else j];
            LinkAdded(node, before, link, i, j);
          }
        }
      }
    }

    /** Move every edge along its link; changed tells whether there was one. */
    method Redirect() returns (changed: bool)
      requires Valid() && LinksTo(node, link)
      modifies `node
      ensures Redirected(old(node), node, link)
      ensures changed <==> exists b :: 0 <= b < |node| && node[b] != old(node)[b]
    {
      changed := false;
      var i := 0;
      while i < |node|
        invariant i <= |node| == |old(node)|
        invariant forall b :: 0 <= b < i ==> node[b] == Forwarded(old(node)[b], link)
        invariant forall b :: i <= b < |node| ==> node[b] == old(node)[b]
        invariant changed <==> exists b :: 0 <= b < |node| && node[b] != old(node)[b]
      {
        ghost var was := node;
        var n := node[i];
        if n.jt != NIL {
          if link[n.jt] != NIL {
            changed := true;
            node := node[i := node[i].(jt := link[n.jt])];
            assert node[i].jt > n.jt;
          }
          if link[n.jf] != NIL {
            changed := true;
            node := node[i := node[i].(jf := link[n.jf])];
            assert node[i].jf > n.jf;
          }
        }
        assert forall b :: 0 <= b < |node| && b != i ==> node[b] == was[b];
        i := i + 1;
      }
    }

    /** Merge equal blocks until no two distinct reachable blocks are equal. */
    method InternBlocks(root: Id, ghost lv: Levels)
      requires Valid() && Exact(node, lv) && root < |node|
      modifies this
      ensures Valid() && |node| == |old(node)| && Exact(node, lv) && Shared(node, root)
      ensures forall b: Id, st: State, p, fuel: nat :: b < |node| ==> Run(node, b, st, p, fuel) == Run(old(node), b, st, p, fuel)
      ensures Walks.SameBlocks(old(node), node)
    {
      hide Exact, LinksTo, Redirected, Shared;
      ghost var n := |node|;
      var changed := true;
      ghost var bound := 2 * n * n;
      ClosedBounded(node);
      while changed
        invariant Valid() && |node| == n && Exact(node, lv) && Bounded(node)
        invariant SameRuns(old(node), node) && Walks.SameBlocks(old(node), node)
        invariant !changed ==> Shared(node, root)
        decreases changed, bound - Sum(node)
      {
        ghost var was := node;
        ExactLeveled(node, lv);
        MarkCode(root, lv);
        FindLinks();
        changed := Redirect();
        Round(was, node, link, lv, changed);
        if !changed {
          SettledShared(node, link, lv, root, Marked());
        }
      }
    }
  }
}
