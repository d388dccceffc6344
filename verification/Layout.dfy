/** Where the assembler puts each block: traversal orders, slot counts and branch
    displacements, as functions of the graph and the long-jump marks. */
module Layout {
  import opened Bpf
  import opened Blocks

  // Whether the true and the false branch of a block reserve a long jump.
  datatype Mark = Mark(t: nat, f: nat) {
    function At(side: bool): nat { if side then t else f }
  }
  type Marks = seq<Mark>

  predicate MarksFor(g: Graph, L: Marks) {
    && |L| == |g|
    && forall b {:trigger L[b]} :: 0 <= b < |g| ==>
      L[b].t <= 1 && L[b].f <= 1 && (!g[b].s.Jmp? ==> L[b] == Mark(0, 0))
  }

  /** Post-order of the blocks first reached from p, after those already done. */
  function Visit(g: Graph, lv: Levels, p: Ref, done: seq<Id>, first: bool): seq<Id>
    requires Leveled(g, lv) && p < |g|
    decreases if p == NIL then 0 else lv[p] + 1
  {
    if p == NIL || p in done then done
    else
      Visit(g, lv, g[p].Succ(!first), Visit(g, lv, g[p].Succ(first), done, first), first) + [p]
  }

  predicate NoDup<T(==)>(s: seq<T>) { forall i, j :: 0 <= i < j < |s| ==> s[i] != s[j] }

  predicate Within(g: Graph, ord: seq<Id>) { forall i :: 0 <= i < |ord| ==> ord[i] < |g| }

  function Elems(ord: seq<Id>): set<Id> { set b | b in ord }

  /** Successors come before their predecessors. */
  predicate Ordered(g: Graph, ord: seq<Id>) {
    && NoDup(ord) && Within(g, ord)
    && forall i {:trigger AfterSuccs(g, ord, i)} :: 0 <= i < |ord| ==> AfterSuccs(g, ord, i)
  }

  predicate AfterSuccs(g: Graph, ord: seq<Id>, i: nat)
    requires i < |ord| && Within(g, ord)
  {
    SuccSet(g, ord[i]) <= Elems(ord[..i])
  }

  lemma {:induction false} OrderedPush(g: Graph, e: seq<Id>, p: Id)
    requires Ordered(g, e) && p !in e && p < |g| && SuccSet(g, p) <= Elems(e)
    ensures Ordered(g, e + [p])
  {
    var r := e + [p];
    forall i | 0 <= i < |r| ensures AfterSuccs(g, r, i) {
      assert i < |e| ==> AfterSuccs(g, e, i);
      assert r[..i] == e[..i];
    }
  }

  lemma {:induction false} VisitOrdered(g: Graph, lv: Levels, p: Ref, done: seq<Id>, first: bool)
    requires Leveled(g, lv) && p < |g| && Ordered(g, done)
    ensures var r := Visit(g, lv, p, done, first);
      && Ordered(g, r) && done <= r && (p != NIL ==> p in r)
      && (forall b :: b in r && b !in done ==> p != NIL && lv[b] <= lv[p])
    decreases if p == NIL then 0 else lv[p] + 1
  {
    if p != NIL && p !in done {
      var d := Visit(g, lv, g[p].Succ(first), done, first);
      VisitOrdered(g, lv, g[p].Succ(first), done, first);
      VisitOrdered(g, lv, g[p].Succ(!first), d, first);
      OrderedPush(g, Visit(g, lv, g[p].Succ(!first), d, first), p);
    }
  }

  /** A visit adds nothing outside any closed set that holds p and the blocks done. */
  lemma {:induction false} VisitMinimal(g: Graph, lv: Levels, p: Ref, done: seq<Id>, first: bool, T: set<Id>)
    requires Leveled(g, lv) && p < |g| && (p == NIL || p in T) && ClosedUnder(g, T) && Elems(done) <= T
    ensures Elems(Visit(g, lv, p, done, first)) <= T
    decreases if p == NIL then 0 else lv[p] + 1
  {
    if p != NIL && p !in done {
      assert SuccSet(g, p) <= T;
      VisitMinimal(g, lv, g[p].Succ(first), done, first, T);
      VisitMinimal(g, lv, g[p].Succ(!first), Visit(g, lv, g[p].Succ(first), done, first), first, T);
    }
  }

  lemma {:induction false} OrderedClosed(g: Graph, ord: seq<Id>)
    requires Ordered(g, ord)
    ensures ClosedUnder(g, Elems(ord))
  {
    forall b | b in Elems(ord) ensures b < |g| && SuccSet(g, b) <= Elems(ord) {
      var i :| 0 <= i < |ord| && ord[i] == b;
      assert AfterSuccs(g, ord, i);
    }
  }

  /** Both traversal orders reach the same blocks. */
  lemma {:induction false} VisitSameElems(g: Graph, lv: Levels, p: Id)
    requires Leveled(g, lv) && p < |g|
    ensures Elems(Visit(g, lv, p, [], true)) == Elems(Visit(g, lv, p, [], false))
  {
    var x, y := Visit(g, lv, p, [], true), Visit(g, lv, p, [], false);
    VisitOrdered(g, lv, p, [], true);
    VisitOrdered(g, lv, p, [], false);
    OrderedClosed(g, x);
    OrderedClosed(g, y);
    VisitMinimal(g, lv, p, [], true, Elems(y));
    VisitMinimal(g, lv, p, [], false, Elems(x));
  }

  function BlockSlots(g: Graph, L: Marks, b: Id): nat
    requires b < |g| == |L|
  {
    |Live(g[b].stmts)| + 1 + L[b].t + L[b].f
  }

  function Slots(g: Graph, L: Marks, ord: seq<Id>): nat
    requires Within(g, ord) && |g| == |L|
  {
    if |ord| == 0 then 0 else Slots(g, L, ord[..|ord|-1]) + BlockSlots(g, L, ord[|ord|-1])
  }

  lemma {:induction false} SlotsRemove(g: Graph, L: Marks, ord: seq<Id>, i: nat)
    requires Within(g, ord) && |g| == |L| && i < |ord|
    ensures Slots(g, L, ord) == Slots(g, L, ord[..i] + ord[i+1..]) + BlockSlots(g, L, ord[i])
  {
    var n := |ord| - 1;
    if i == n {
      assert ord[..i] + ord[i+1..] == ord[..n];
    } else {
      var cut := ord[..i] + ord[i+1..];
      assert ord[..n][..i] + ord[..n][i+1..] == cut[..|cut|-1];
      SlotsRemove(g, L, ord[..n], i);
    }
  }

  lemma {:induction false} ElemsNonEmpty(y: seq<Id>)
    requires |y| != 0
    ensures Elems(y) != {}
  {
    assert y[0] in Elems(y);
  }

  lemma {:induction false} SlotsSame(g: Graph, L: Marks, x: seq<Id>, y: seq<Id>)
    requires NoDup(x) && NoDup(y) && Elems(x) == Elems(y) && Within(g, x) && Within(g, y) && |g| == |L|
    ensures Slots(g, L, x) == Slots(g, L, y)
  {
    if |x| == 0 {
      if |y| != 0 { ElemsNonEmpty(y); }
    } else {
      var n := |x| - 1;
      assert x[n] in Elems(x);
      var i :| 0 <= i < |y| && y[i] == x[n];
      var z := y[..i] + y[i+1..];
      assert Elems(x[..n]) == Elems(x) - {x[n]};
      assert forall b :: b in z <==> b in y && b != x[n];
      assert Elems(z) == Elems(y) - {x[n]};
      SlotsSame(g, L, x[..n], z);
      SlotsRemove(g, L, y, i);
    }
  }

  /** The slots from the start of b to the end of the program. */
  function Below(g: Graph, L: Marks, ord: seq<Id>, b: Id): nat
    requires Within(g, ord) && |g| == |L| && b in ord
  {
    var n := |ord| - 1;
    if ord[n] == b then Slots(g, L, ord) else Below(g, L, ord[..n], b)
  }

  /** Placing more blocks does not move those already placed. */
  lemma {:induction false} BelowPrefix(g: Graph, L: Marks, done: seq<Id>, ord: seq<Id>, b: Id)
    requires Within(g, ord) && |g| == |L| && NoDup(ord) && done <= ord && b in done
    ensures Below(g, L, done, b) == Below(g, L, ord, b)
    ensures BlockSlots(g, L, b) <= Below(g, L, ord, b) <= Slots(g, L, ord)
  {
    var n := |ord| - 1;
    if done == ord {
      if ord[n] != b { BelowPrefix(g, L, ord[..n], ord[..n], b); }
    } else {
      assert done <= ord[..n];
      BelowPrefix(g, L, done, ord[..n], b);
    }
  }

  lemma {:induction false} SlotsPrefix(g: Graph, L: Marks, done: seq<Id>, ord: seq<Id>)
    requires Within(g, ord) && |g| == |L| && done <= ord
    ensures Slots(g, L, done) <= Slots(g, L, ord)
    decreases |ord|
  {
    if done != ord {
      assert done <= ord[..|ord|-1];
      SlotsPrefix(g, L, done, ord[..|ord|-1]);
    }
  }

  /** A later block in ord starts below every earlier one, by at least its own size. */
  lemma {:induction false} BelowAhead(g: Graph, L: Marks, ord: seq<Id>, i: nat, j: nat)
    requires Within(g, ord) && |g| == |L| && NoDup(ord) && i < j < |ord|
    ensures Below(g, L, ord, ord[i]) + BlockSlots(g, L, ord[j]) <= Below(g, L, ord, ord[j]) <= Slots(g, L, ord)
  {
    assert ord[i] in ord[..j] && ord[j] in ord[..j+1];
    BelowPrefix(g, L, ord[..j], ord, ord[i]);
    BelowPrefix(g, L, ord[..j+1], ord, ord[j]);
    BelowPrefix(g, L, ord[..j], ord[..j], ord[i]);
    assert ord[..j+1][..j] == ord[..j];
  }

  /** The operand of the branch at the end of b: slots between it and its target. */
  function Disp(g: Graph, L: Marks, ord: seq<Id>, b: Id, side: bool): int
    requires Within(g, ord) && |g| == |L| && b in ord && g[b].Succ(side) in ord
  {
    Below(g, L, ord, b) - Below(g, L, ord, g[b].Succ(side)) - |Live(g[b].stmts)| - 1
  }

  // In an ordered placement the successors of a branch are found before it.
  lemma {:induction false} SuccPlaced(g: Graph, ord: seq<Id>, b: Id, side: bool) returns (i: nat, j: nat)
    requires Ordered(g, ord) && b in ord && g[b].s.Jmp?
    ensures i < j < |ord| && ord[i] == g[b].Succ(side) && ord[j] == b
  {
    j :| 0 <= j < |ord| && ord[j] == b;
    assert AfterSuccs(g, ord, j) && g[b].Succ(side) in SuccSet(g, b);
    i :| 0 <= i < j && ord[i] == g[b].Succ(side);
  }

  /** Every successor lies strictly after its branch and the slots reserved behind it. */
  lemma {:induction false} DispNonNegative(g: Graph, L: Marks, ord: seq<Id>, b: Id, side: bool)
    requires Ordered(g, ord) && |g| == |L| && b in ord && g[b].s.Jmp?
    ensures g[b].Succ(side) in ord && Disp(g, L, ord, b, side) >= L[b].t + L[b].f
  {
    var i, j := SuccPlaced(g, ord, b, side);
    BelowAhead(g, L, ord, i, j);
  }

  predicate MarksGrow(L: Marks, L': Marks) {
    |L| == |L'| && forall b {:trigger L[b]} {:trigger L'[b]} :: 0 <= b < |L| ==> L[b].t <= L'[b].t && L[b].f <= L'[b].f
  }

  lemma {:induction false} BelowGrows(g: Graph, L: Marks, L': Marks, ord: seq<Id>, i: nat, j: nat)
    requires Within(g, ord) && |g| == |L| && MarksGrow(L, L') && NoDup(ord) && i < j < |ord|
    ensures Below(g, L, ord, ord[j]) - Below(g, L, ord, ord[i])
         <= Below(g, L', ord, ord[j]) - Below(g, L', ord, ord[i])
  {
    var n := |ord| - 1;
    if j < n {
      BelowGrows(g, L, L', ord[..n], i, j);
    } else if i == j - 1 {
      assert ord[..n][n-1] == ord[i];
    } else {
      assert ord[..n][i] == ord[i] && ord[..n][n-1] == ord[n-1];
      BelowGrows(g, L, L', ord[..n], i, n - 1);
    }
  }

  /** Adding marks never shrinks a displacement. */
  lemma {:induction false} DispGrows(g: Graph, L: Marks, L': Marks, ord: seq<Id>, b: Id, side: bool)
    requires Ordered(g, ord) && |g| == |L| && MarksGrow(L, L') && b in ord && g[b].s.Jmp?
    ensures g[b].Succ(side) in ord && Disp(g, L, ord, b, side) <= Disp(g, L', ord, b, side)
  {
    var i, j := SuccPlaced(g, ord, b, side);
    BelowGrows(g, L, L', ord, i, j);
  }

  /** Every mark is needed: the branch it belongs to cannot reach its target in eight bits. */
  predicate Stable(g: Graph, L: Marks, ord: seq<Id>)
    requires Within(g, ord) && |g| == |L|
  {
    forall b, side :: b in ord && g[b].s.Jmp? && L[b].At(side) == 1 ==>
      g[b].Succ(side) in ord && Disp(g, L, ord, b, side) >= 256
  }

  function SetMark(L: Marks, b: Id, side: bool): Marks
    requires b < |L|
  {
    L[b := if side then Mark(1, L[b].f) else Mark(L[b].t, 1)]
  }

  /** Marking a branch that cannot reach keeps every mark needed. */
  lemma {:induction false} StableGrows(g: Graph, L: Marks, ord: seq<Id>, b: Id, side: bool)
    requires Ordered(g, ord) && MarksFor(g, L) && Stable(g, L, ord)
    requires b in ord && g[b].s.Jmp? && g[b].Succ(side) in ord && Disp(g, L, ord, b, side) >= 256
    ensures var L' := SetMark(L, b, side);
      MarksFor(g, L') && MarksGrow(L, L') && Stable(g, L', ord)
  {
    var L' := SetMark(L, b, side);
    forall c, s | c in ord && g[c].s.Jmp? && L'[c].At(s) == 1
      ensures g[c].Succ(s) in ord && Disp(g, L', ord, c, s) >= 256
    {
      DispGrows(g, L, L', ord, c, s);
      assert c != b ==> L'[c] == L[c];
    }
  }
}
