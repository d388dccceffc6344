/** Depth-first marking: what the recursive walks over the graph reach. */
module Reach {
  import opened Blocks
  import opened Layout

  /** R is exactly the set of blocks reached from root. */
  ghost predicate IsReach(g: Graph, root: Id, R: set<Id>) {
    && root < |g| && root in R && ClosedUnder(g, R)
    && forall T: set<Id> :: root in T && ClosedUnder(g, T) ==> R <= T
  }

  lemma {:induction false} VisitReach(g: Graph, lv: Levels, root: Id, first: bool)
    requires Leveled(g, lv) && root < |g|
    ensures IsReach(g, root, Elems(Visit(g, lv, root, [], first)))
  {
    VisitOrdered(g, lv, root, [], first);
    OrderedClosed(g, Visit(g, lv, root, [], first));
    forall T: set<Id> | root in T && ClosedUnder(g, T) ensures Elems(Visit(g, lv, root, [], first)) <= T {
      VisitMinimal(g, lv, root, [], first, T);
    }
  }

  // M is the set of marked blocks: at the level of p and below, exactly those done.
  predicate Agrees(M: set<Id>, lv: Levels, p: Ref, done: seq<Id>)
    requires p < |lv| && forall b :: b in M ==> b < |lv|
  {
    && Elems(done) <= M
    && forall b :: b in M && p != NIL && lv[b] <= lv[p] ==> b in done
  }

  lemma {:induction false} AgreesBelow(g: Graph, lv: Levels, M: set<Id>, p: Id, done: seq<Id>, d: seq<Id>, side: bool)
    requires Leveled(g, lv) && p < |g| && (forall b :: b in M ==> b < |lv|) && Agrees(M, lv, p, done)
    requires Within(g, d) && Elems(done) <= Elems(d)
    ensures Agrees(M + {p} + Elems(d), lv, g[p].Succ(side), d)
  {
    var q := g[p].Succ(side);
    forall b | b in M + {p} + Elems(d) && q != NIL && lv[b] <= lv[q] ensures b in d {
      if b in M {
        assert b in done && b in Elems(d);
      }
    }
  }

  /** A marked block, or none, is not visited again. */
  lemma {:induction false} VisitNothing(g: Graph, lv: Levels, M: set<Id>, p: Ref, done: seq<Id>, first: bool)
    requires Leveled(g, lv) && (forall b :: b in M ==> b < |lv|) && p < |g| && (p == NIL || p in M)
    requires Agrees(M, lv, p, done)
    ensures Visit(g, lv, p, done, first) == done && M + Elems(done) == M
  {
  }

  /** The two recursive visits of a visit to an unmarked block. */
  lemma {:induction false} Unfold(g: Graph, lv: Levels, M: set<Id>, p: Id, done: seq<Id>, first: bool)
    returns (d: seq<Id>, e: seq<Id>)
    requires Leveled(g, lv) && (forall b :: b in M ==> b < |lv|) && p < |g| && p !in M
    requires Ordered(g, done) && Agrees(M, lv, p, done)
    ensures d == Visit(g, lv, g[p].Succ(first), done, first)
    ensures e == Visit(g, lv, g[p].Succ(!first), d, first)
    ensures Visit(g, lv, p, done, first) == e + [p] && p !in e
    ensures Ordered(g, d) && Ordered(g, e) && Ordered(g, e + [p]) && done <= d <= e
    ensures Agrees(M + {p}, lv, g[p].Succ(first), done)
    ensures Agrees(M + {p} + Elems(d), lv, g[p].Succ(!first), d)
    ensures M + {p} + Elems(d) + Elems(e) == M + Elems(e + [p])
  {
    assert p !in Elems(done);
    d := Visit(g, lv, g[p].Succ(first), done, first);
    e := Visit(g, lv, g[p].Succ(!first), d, first);
    VisitOrdered(g, lv, g[p].Succ(first), done, first);
    VisitOrdered(g, lv, g[p].Succ(!first), d, first);
    VisitOrdered(g, lv, p, done, first);
    assert M + {p} + Elems(done) == M + {p};
    AgreesBelow(g, lv, M, p, done, done, first);
    AgreesBelow(g, lv, M, p, done, d, !first);
    assert Elems(d) <= Elems(e) && Elems(e + [p]) == Elems(e) + {p};
  }

  /** A visit to an unmarked leaf adds just the leaf. */
  lemma {:induction false} LeafVisits(g: Graph, lv: Levels, M: set<Id>, p: Id, done: seq<Id>)
    requires Leveled(g, lv) && p < |g| && !g[p].s.Jmp? && (forall b :: b in M ==> b < |lv|) && Agrees(M, lv, p, done)
    ensures g[p].jt == g[p].jf == NIL && Visit(g, lv, NIL, done, true) == done
    ensures M + {p} + Elems(done) + Elems(done) == M + {p}
  {
  }

  /** The successors of a block are visited before it. */
  lemma {:induction false} UnfoldSuccs(g: Graph, lv: Levels, p: Id, done: seq<Id>)
    requires Leveled(g, lv) && p < |g| && p !in done && Ordered(g, done)
    ensures SuccSet(g, p) <= Elems(Visit(g, lv, g[p].jf, Visit(g, lv, g[p].jt, done, true), true))
  {
    var d := Visit(g, lv, g[p].jt, done, true);
    VisitOrdered(g, lv, g[p].jt, done, true);
    VisitOrdered(g, lv, g[p].jf, d, true);
  }

  /** Blocks reached from the root lie below it. */
  lemma {:induction false} ReachBelow(g: Graph, lv: Levels, root: Id, R: set<Id>, x: Id)
    requires Leveled(g, lv) && IsReach(g, root, R) && x in R && x != root
    ensures lv[x] < lv[root]
  {
    var T := set b | b in R && (b == root || lv[b] < lv[root]);
    assert ClosedUnder(g, T);
  }

  /** Leaving b by the given sides, one block after the other, leads to c. */
  predicate Follows(g: Graph, b: Id, sides: seq<bool>, c: Id)
    requires Closed(g) && b < |g|
    decreases |sides|
  {
    if |sides| == 0 then b == c else g[b].s.Jmp? && Follows(g, g[b].Succ(sides[0]), sides[1..], c)
  }

  lemma {:induction false} FollowsOn(g: Graph, b: Id, sides: seq<bool>, c: Id, more: seq<bool>, d: Id)
    requires Closed(g) && b < |g| && c < |g| && Follows(g, b, sides, c) && Follows(g, c, more, d)
    ensures Follows(g, b, sides + more, d)
    decreases |sides|
  {
    if |sides| == 0 {
      assert sides + more == more;
    } else {
      assert (sides + more)[1..] == sides[1..] + more;
      FollowsOn(g, g[b].Succ(sides[0]), sides[1..], c, more, d);
    }
  }

  lemma {:induction false} FollowsEdge(g: Graph, b: Id, side: bool)
    requires Closed(g) && b < |g| && g[b].s.Jmp?
    ensures Follows(g, b, [side], g[b].Succ(side))
  {
    assert [side][1..] == [];
  }

  // Block c is reached by some path from b.
  ghost predicate Leads(g: Graph, b: Id, c: Id)
    requires Closed(g) && b < |g|
  {
    exists sides :: Follows(g, b, sides, c)
  }

  /** Every reachable block is reached by a path. */
  lemma {:induction false} ReachLeads(g: Graph, root: Id, reach: set<Id>, c: Id)
    requires Closed(g) && IsReach(g, root, reach) && c in reach
    ensures Leads(g, root, c)
  {
    var T := set b | b in reach && Leads(g, root, b);
    assert Follows(g, root, [], root);
    forall b | b in T ensures SuccSet(g, b) <= T {
      forall d | d in SuccSet(g, b) ensures d in T {
        LeadsOn(g, root, b, d == g[b].jt);
      }
    }
    assert ClosedUnder(g, T);
  }

  lemma {:induction false} LeadsOn(g: Graph, root: Id, b: Id, side: bool)
    requires Closed(g) && root < |g| && b < |g| && g[b].s.Jmp? && Leads(g, root, b)
    ensures Leads(g, root, g[b].Succ(side))
  {
    hide Follows;
    var sides :| Follows(g, root, sides, b);
    FollowsEdge(g, b, side);
    FollowsOn(g, root, sides, b, [side], g[b].Succ(side));
  }

  /** A path is empty, or starts along one of the two sides. */
  lemma {:induction false} LeadsFirst(g: Graph, p: Id, x: Id)
    requires Closed(g) && p < |g|
    ensures Leads(g, p, x) <==> p == x || (g[p].s.Jmp? && (Leads(g, g[p].jt, x) || Leads(g, g[p].jf, x)))
  {
    if Leads(g, p, x) {
      var sides :| Follows(g, p, sides, x);
      if |sides| > 0 { assert Follows(g, g[p].Succ(sides[0]), sides[1..], x); }
    }
    if p == x { assert Follows(g, p, [], x); }
    if g[p].s.Jmp? {
      LeadsBehind(g, p, true, x);
      LeadsBehind(g, p, false, x);
    }
  }

  lemma {:induction false} LeadsBehind(g: Graph, p: Id, side: bool, x: Id)
    requires Closed(g) && p < |g| && g[p].s.Jmp?
    ensures Leads(g, g[p].Succ(side), x) ==> Leads(g, p, x)
  {
    if Leads(g, g[p].Succ(side), x) {
      var sides :| Follows(g, g[p].Succ(side), sides, x);
      assert ([side] + sides)[1..] == sides;
      assert Follows(g, p, [side] + sides, x);
    }
  }
}
