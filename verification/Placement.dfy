/** Which target of a branch is placed directly behind it. */
module Placement {
  import opened Blocks
  import opened Layout
  import opened Reach

  /** On the way from p to b that takes the false side wherever it leads to b, no false side left aside leads to x. */
  ghost predicate Unplaced(g: Graph, lv: Levels, p: Id, b: Id, x: Id)
    requires Leveled(g, lv) && p < |g|
    decreases lv[p]
  {
    p == b
    || (g[p].s.Jmp? && if Leads(g, g[p].jf, b) then Unplaced(g, lv, g[p].jf, b, x)
                       else !Leads(g, g[p].jf, x) && Unplaced(g, lv, g[p].jt, b, x))
  }

  /** What a closed list holds, it holds with all that it leads to. */
  lemma {:induction false} LeadsInside(g: Graph, lv: Levels, done: seq<Id>, p: Id, x: Id)
    requires Leveled(g, lv) && Ordered(g, done) && p in done && p < |g| && Leads(g, p, x)
    ensures x in done
    decreases lv[p]
  {
    hide Ordered, Leads;
    LeadsFirst(g, p, x);
    OrderedClosed(g, done);
    assert p in Elems(done);
    if p != x {
      assert g[p].jt in SuccSet(g, p) && g[p].jf in SuccSet(g, p);
      LeadsInside(g, lv, done, if Leads(g, g[p].jt, x) then g[p].jt else g[p].jf, x);
    }
  }

  /** A visit adds exactly the blocks its start leads to. */
  lemma {:induction false} VisitAdds(g: Graph, lv: Levels, p: Ref, done: seq<Id>, first: bool, x: Id)
    requires Leveled(g, lv) && p < |g| && Ordered(g, done)
    ensures x in Visit(g, lv, p, done, first) <==> x in done || (p != NIL && Leads(g, p, x))
    decreases if p == NIL then 0 else lv[p] + 1
  {
    hide Ordered, Leads;
    if p != NIL && p in done {
      if Leads(g, p, x) { LeadsInside(g, lv, done, p, x); }
    } else if p != NIL {
      var d := Visit(g, lv, g[p].Succ(first), done, first);
      VisitOrdered(g, lv, g[p].Succ(first), done, first);
      VisitAdds(g, lv, g[p].Succ(first), done, first, x);
      VisitAdds(g, lv, g[p].Succ(!first), d, first, x);
      LeadsFirst(g, p, x);
    }
  }

  // In the order of placement, from the tail, b comes directly after x.
  predicate Directly(ord: seq<Id>, x: Id, b: Id) { exists i {:trigger ord[i]} :: 0 <= i < |ord| - 1 && ord[i] == x && ord[i+1] == b }

  lemma {:induction false} DirectlyLonger(e: seq<Id>, ord: seq<Id>, x: Id, b: Id)
    requires Directly(e, x, b) && e <= ord
    ensures Directly(ord, x, b)
  {
    var i :| 0 <= i < |e| - 1 && e[i] == x && e[i+1] == b;
    assert ord[i] == x && ord[i+1] == b;
  }

  /** A target that nothing before b leads to comes directly after b: the true one if the false one does not lead to it, and the
      false one if it does. */
  lemma {:induction false} VisitDirectly(g: Graph, lv: Levels, p: Id, done: seq<Id>, b: Id, x: Id)
    requires Leveled(g, lv) && p < |g| && b < |g| && Ordered(g, done) && Leads(g, p, b) && b !in done && g[b].s.Jmp?
    requires x < |g| && x !in done && Unplaced(g, lv, p, b, x)
    requires x == if Leads(g, g[b].jf, g[b].jt) then g[b].jf else g[b].jt
    ensures Directly(Visit(g, lv, p, done, false), x, b)
    decreases lv[p]
  {
    hide Ordered, Leads, Directly;
    if p in done { LeadsInside(g, lv, done, p, b); }
    var d := Visit(g, lv, g[p].jf, done, false);
    var e := Visit(g, lv, g[p].jt, d, false);
    VisitOrdered(g, lv, g[p].jf, done, false);
    VisitOrdered(g, lv, g[p].jt, d, false);
    assert Visit(g, lv, p, done, false) == e + [p];
    if p == b {
      DirectlyLast(g, lv, b, done, x);
    } else {
      LeadsFirst(g, p, b);
      if Leads(g, g[p].jf, b) {
        VisitDirectly(g, lv, g[p].jf, done, b, x);
        DirectlyLonger(d, e + [p], x, b);
      } else {
        VisitAdds(g, lv, g[p].jf, done, false, b);
        VisitAdds(g, lv, g[p].jf, done, false, x);
        VisitDirectly(g, lv, g[p].jt, d, b, x);
        DirectlyLonger(e, e + [p], x, b);
      }
    }
  }

  lemma {:induction false} DirectlyLast(g: Graph, lv: Levels, b: Id, done: seq<Id>, x: Id)
    requires Leveled(g, lv) && b < |g| && Ordered(g, done) && b !in done && g[b].s.Jmp?
    requires x < |g| && x !in done && x == if Leads(g, g[b].jf, g[b].jt) then g[b].jf else g[b].jt
    ensures Directly(Visit(g, lv, b, done, false), x, b)
  {
    hide Ordered, Leads;
    var d := Visit(g, lv, g[b].jf, done, false);
    var e := Visit(g, lv, g[b].jt, d, false);
    VisitOrdered(g, lv, g[b].jf, done, false);
    VisitAdds(g, lv, g[b].jf, done, false, g[b].jt);
    assert e[|e|-1] == x;
    assert (e + [b])[|e|-1] == x && (e + [b])[|e|-1+1] == b;
  }

  // The slots between a branch and its target when only the jumps inserted for it lie there.
  lemma {:induction false} DirectlyDisp(g: Graph, L: Marks, ord: seq<Id>, b: Id, side: bool)
    requires Ordered(g, ord) && |g| == |L| && b in ord && g[b].s.Jmp? && g[b].Succ(side) in ord && Directly(ord, g[b].Succ(side), b)
    ensures Disp(g, L, ord, b, side) == L[b].t + L[b].f
  {
    var i :| 0 <= i < |ord| - 1 && ord[i] == g[b].Succ(side) && ord[i+1] == b;
    BelowPrefix(g, L, ord[..i+1], ord, ord[i]);
    BelowPrefix(g, L, ord[..i+2], ord, b);
    assert ord[..i+2][..i+1] == ord[..i+1];
  }

  lemma {:induction false} PrefixOrdered(g: Graph, ord: seq<Id>, j: nat)
    requires Ordered(g, ord) && j <= |ord|
    ensures Ordered(g, ord[..j])
  {
    var e := ord[..j];
    forall i | 0 <= i < |e| ensures AfterSuccs(g, e, i) {
      assert AfterSuccs(g, ord, i) && e[..i] == ord[..i];
    }
  }

  /** What c leads to is placed behind it. */
  lemma {:induction false} LeadsBehindIt(g: Graph, lv: Levels, L: Marks, ord: seq<Id>, c: Id, x: Id)
    requires Leveled(g, lv) && Ordered(g, ord) && |g| == |L| && c in ord && c != x && Leads(g, c, x)
    ensures x in ord && Below(g, L, ord, x) < Below(g, L, ord, c)
  {
    hide Leads, Below;
    var j :| 0 <= j < |ord| && ord[j] == c;
    LeadsFirst(g, c, x);
    assert AfterSuccs(g, ord, j) && g[c].jt in SuccSet(g, c) && g[c].jf in SuccSet(g, c);
    PrefixOrdered(g, ord, j);
    LeadsInside(g, lv, ord[..j], if Leads(g, g[c].jt, x) then g[c].jt else g[c].jf, x);
    var i :| 0 <= i < j && ord[i] == x;
    BelowAhead(g, L, ord, i, j);
  }

  lemma {:induction false} NoneOrdered(g: Graph)
    ensures Ordered(g, [])
  {
  }

  /** Where the targets of b lie. */
  ghost predicate Adjoins(g: Graph, lv: Levels, L: Marks, at: seq<nat>, root: Id, b: Id)
    requires Leveled(g, lv) && root < |g| == |L| == |at| && b < |g| && g[b].s.Jmp?
  {
    var next := at[b] + BlockSlots(g, L, b);
    if Leads(g, g[b].jf, g[b].jt)
    then (Unplaced(g, lv, root, b, g[b].jf) ==> at[g[b].jf] == next) && (g[b].jt != g[b].jf ==> at[g[b].jt] > next)
    else Unplaced(g, lv, root, b, g[b].jt) ==> at[g[b].jt] == next
  }

  /** Offsets counted from the end of the layout put them there. */
  lemma {:induction false} TargetsAdjoin(g: Graph, lv: Levels, L: Marks, at: seq<nat>, root: Id, n: nat, b: Id)
    requires Leveled(g, lv) && root < |g| == |L| == |at|
    requires var ord := Visit(g, lv, root, [], false); Ordered(g, ord) && b in ord && forall c :: c in ord ==> at[c] == n - Below(g, L, ord, c)
    requires b < |g| && g[b].s.Jmp?
    ensures Adjoins(g, lv, L, at, root, b)
  {
    hide Leads, Ordered, Visit, Below, Directly;
    var ord := Visit(g, lv, root, [], false);
    NoneOrdered(g);
    VisitAdds(g, lv, root, [], false, b);
    DispNonNegative(g, L, ord, b, true);
    DispNonNegative(g, L, ord, b, false);
    var onto := Leads(g, g[b].jf, g[b].jt);
    var x := if onto then g[b].jf else g[b].jt;
    if Unplaced(g, lv, root, b, x) {
      VisitDirectly(g, lv, root, [], b, x);
      DirectlyDisp(g, L, ord, b, !onto);
    }
    if onto && g[b].jt != g[b].jf {
      LeadsBehindIt(g, lv, L, ord, g[b].jf, g[b].jt);
    }
  }
}
