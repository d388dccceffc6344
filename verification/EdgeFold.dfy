/** Moving edges past branches whose outcome the way there has already decided. */
module EdgeFold {
  import opened Words
  import opened Bpf
  import opened Blocks
  import opened Reach
  import opened Levels
  import opened Dominance
  import opened Dominators
  import opened Liveness
  import opened Values
  import opened Treatments
  import opened Walks

  // What value numbering left behind: numbers of atoms at block ends, operand numbers, meanings.
  datatype Numbers = Numbers(val: seq<Vals>, oval: seq<nat>, ghost den: seq<Term>)

  predicate Sized(g: Graph, nm: Numbers) { |g| == |nm.val| == |nm.oval| }

  // Same opcode: the comparison and whether the operand is a constant.
  predicate SameCode(x: Branch, y: Branch) { x.Jmp? && y.Jmp? && x.jop == y.jop && x.src.K? == y.src.K? }

  /** Where the branch of child must go after edge f was taken, or NIL. */
  function FoldEdge(g: Graph, nm: Numbers, child: Id, f: EdgeId): Ref
    requires Sized(g, nm) && child < |g| && f < 2 * |g|
  {
    var pred, sense := Tail(g, f), f < |g|;
    if !SameCode(g[child].s, g[pred].s) then NIL
    else if nm.val[child][A_ATOM] != nm.val[pred][A_ATOM] then NIL
    else if nm.oval[child] == nm.oval[pred] then g[child].Succ(sense)
    else if sense && g[pred].s.jop == Jeq && g[pred].s.src.K? then g[child].jf
    else NIL
  }

  /** The choice of b is its comparison applied to the values its numbers stand for, unless b faults. */
  ghost predicate ChoiceAt(g: Graph, nm: Numbers, ch: seq<Choice>, p: Packet, b: Id)
    requires Sized(g, nm) && b < |g| == |ch|
  {
    g[b].s.Jmp? && ch[b] != End(Fault) ==>
      && nm.val[b][A_ATOM] < |nm.den| && 0 < nm.oval[b] < |nm.den|
      && var a, o := Eval(nm.den[nm.val[b][A_ATOM]], p), Eval(nm.den[nm.oval[b]], p);
      && a.Some? && o.Some? && ch[b] == Go(Test(g[b].s.jop, a.value, o.value))
      && (g[b].s.src.K? ==> nm.den[nm.oval[b]] == Const(o.value))
  }

  ghost predicate Choices(g: Graph, nm: Numbers, S: set<Id>, ch: seq<Choice>, p: Packet) {
    && Sized(g, nm) && |ch| == |g|
    && (forall b :: b in S ==> b < |g|)
    && forall b {:trigger ChoiceAt(g, nm, ch, p, b)} :: b in S ==> ChoiceAt(g, nm, ch, p, b)
  }

  /** If edge f was taken, the block child goes where FoldEdge says. */
  lemma {:induction false} FoldEdgeSound(g: Graph, nm: Numbers, S: set<Id>, ch: seq<Choice>, p: Packet, child: Id, f: EdgeId)
    requires Choices(g, nm, S, ch, p) && ConstsDistinct(nm.den) && child in S && f < 2 * |g| && Tail(g, f) in S
    requires ch[Tail(g, f)] == Go(f < |g|) && FoldEdge(g, nm, child, f) != NIL
    ensures ch[child] == End(Fault) || (ch[child].Go? && g[child].Succ(ch[child].side) == FoldEdge(g, nm, child, f))
  {
    hide Eval;
    assert ChoiceAt(g, nm, ch, p, child) && ChoiceAt(g, nm, ch, p, Tail(g, f));
  }

  // Every A for which the comparison with k1 comes out as sense takes the one with k2 to side.
  ghost predicate Forces(k1: Word, sense: bool, k2: Word, side: bool) {
    forall a: Word :: Test(Jeq, a, k1) == sense ==> Test(Jeq, a, k2) == side
  }

  /** Two comparisons of the same A with constants for equality: the second is decided exactly where the first one leaves no
      choice. */
  lemma {:induction false} FoldEdgeExact(g: Graph, nm: Numbers, child: Id, f: EdgeId, k1: Word, k2: Word)
    requires Sized(g, nm) && child < |g| && f < 2 * |g| && nm.val[child][A_ATOM] == nm.val[Tail(g, f)][A_ATOM]
    requires g[Tail(g, f)].s == Jmp(Jeq, K(k1)) && g[child].s == Jmp(Jeq, K(k2)) && g[child].jt != NIL && g[child].jf != NIL
    requires nm.oval[child] == nm.oval[Tail(g, f)] <==> k1 == k2
    ensures FoldEdge(g, nm, child, f) != NIL <==> Forces(k1, f < |g|, k2, true) || Forces(k1, f < |g|, k2, false)
    ensures forall side :: Forces(k1, f < |g|, k2, side) ==> FoldEdge(g, nm, child, f) == g[child].Succ(side)
  {
    hide Forces;
    ForcesExact(k1, f < |g|, k2);
  }

  lemma {:induction false} ForcesExact(k1: Word, sense: bool, k2: Word)
    ensures forall side :: Forces(k1, sense, k2, side) <==> if k1 == k2 then side == sense else sense && !side
  {
    forall side ensures Forces(k1, sense, k2, side) <==> if k1 == k2 then side == sense else sense && !side {
      var other: Word := if k1 != 0 && k2 != 0 then 0 else if k1 != 1 && k2 != 1 then 1 else 2;
      assert Test(Jeq, k1, k1) && Test(Jeq, k2, k2) && !Test(Jeq, other, k1) && !Test(Jeq, other, k2);
    }
  }

  // Whatever is compared, equal operands if same, the second comparison goes to side when the first goes to sense.
  ghost predicate Decided(jop: JmpOp, same: bool, sense: bool, side: bool) {
    forall a: Word, o: Word, o2: Word :: (same ==> o2 == o) && Test(jop, a, o) == sense ==> Test(jop, a, o2) == side
  }

  /** Any other two comparisons of one kind of the same A: the second is decided exactly where that follows from the numbers of the
      operands, whatever they stand for. */
  lemma {:induction false} FoldEdgeUnknown(g: Graph, nm: Numbers, child: Id, f: EdgeId)
    requires Sized(g, nm) && child < |g| && f < 2 * |g| && nm.val[child][A_ATOM] == nm.val[Tail(g, f)][A_ATOM]
    requires SameCode(g[child].s, g[Tail(g, f)].s) && g[child].jt != NIL && g[child].jf != NIL
    requires g[child].s.jop != Jeq || g[child].s.src.X?
    ensures var jop, same := g[child].s.jop, nm.oval[child] == nm.oval[Tail(g, f)];
      && (FoldEdge(g, nm, child, f) != NIL <==> Decided(jop, same, f < |g|, true) || Decided(jop, same, f < |g|, false))
      && (forall side :: Decided(jop, same, f < |g|, side) ==> FoldEdge(g, nm, child, f) == g[child].Succ(side))
  {
    hide Decided;
    DecidedExact(g[child].s.jop, nm.oval[child] == nm.oval[Tail(g, f)], f < |g|);
  }

  lemma {:induction false} DecidedExact(jop: JmpOp, same: bool, sense: bool)
    ensures forall side :: Decided(jop, same, sense, side) <==> same && side == sense
  {
    hide Test;
    var yes, no := TestBoth(jop);
    forall side ensures Decided(jop, same, sense, side) <==> same && side == sense {
      var o := if sense then yes else no;
      var o2 := if same then o else if side then no else yes;
      assert Test(jop, 1, o) == sense && (!same ==> Test(jop, 1, o2) == !side);
    }
  }

  lemma {:induction false} TestBoth(jop: JmpOp) returns (yes: Word, no: Word)
    ensures Test(jop, 1, yes) && !Test(jop, 1, no)
  {
    hide Band;
    BandOnes(1);
    BandZero(1);
    yes := if jop == Jgt then 0 else if jop == Jset then ONES else 1;
    no := if jop == Jgt then 1 else if jop == Jge then 2 else 0;
  }

  /** Moving an edge to a successor of the block it led to keeps levels falling. */
  lemma {:induction false} MovedDescends(g: Graph, S: set<Id>, level: seq<nat>, e: EdgeId, side: bool)
    requires Descends(g, S, level) && e < 2 * |g| && Tail(g, e) in S && g[Tail(g, e)].s.Jmp?
    requires 0 <= Head(g, e) < |g| && g[Head(g, e)].s.Jmp?
    ensures 0 <= g[Head(g, e)].Succ(side) < |g| && Descends(Moved(g, e, g[Head(g, e)].Succ(side)), S, level)
  {
    var b, c := Tail(g, e), Head(g, e);
    Down(g, S, level, b, e < |g|);
    Down(g, S, level, c, side);
    var g2 := Moved(g, e, g[c].Succ(side));
    forall m | m in S ensures DownAt(g2, S, level, m) {
      assert DownAt(g, S, level, m);
    }
  }

  /** Below the moved edge, and beside it, walks are the same. */
  lemma {:induction false} SameBelow(g: Graph, S: set<Id>, level: seq<nat>, e: EdgeId, target: Id, ch: seq<Choice>, b: Id)
    requires Descends(g, S, level) && |ch| == |g| && b in S && e < 2 * |g| && Tail(g, e) < |g| && target < |g|
    requires Descends(Moved(g, e, target), S, level)
    requires level[b] <= level[Tail(g, e)] && (b != Tail(g, e) || ch[b] != Go(e < |g|))
    ensures Walk(Moved(g, e, target), S, level, ch, b) == Walk(g, S, level, ch, b)
    decreases level[b]
  {
    if ch[b].Go? && g[b].s.Jmp? {
      Down(g, S, level, b, ch[b].side);
      SameBelow(g, S, level, e, target, ch, g[b].Succ(ch[b].side));
    }
  }

  // The path taken so far, from the root to block b, agrees with the choices.
  predicate Trodden(g0: Graph, S: set<Id>, root: Id, ch: seq<Choice>, path: seq<EdgeId>, b: Ref)
    requires |ch| == |g0|
  {
    && (forall i {:trigger path[i]} :: 0 <= i < |path| ==>
          path[i] < 2 * |g0| && Tail(g0, path[i]) in S && ch[Tail(g0, path[i])] == Go(path[i] < |g0|))
    && if path == [] then b == root
       else IsPath(EdgePreds(g0), Entry(g0, root), path) && Head(g0, path[|path|-1]) == b
  }

  function Entry(g: Graph, root: Id): set<EdgeId> { {EdgeOf(g, root, true), EdgeOf(g, root, false)} }

  lemma {:induction false} TreadOn(g0: Graph, S: set<Id>, root: Id, ch: seq<Choice>, path: seq<EdgeId>, b: Id, side: bool)
    requires |ch| == |g0| && b < |g0| && b in S && Trodden(g0, S, root, ch, path, b) && ch[b] == Go(side)
    ensures Trodden(g0, S, root, ch, path + [EdgeOf(g0, b, side)], g0[b].Succ(side))
    ensures PathTo(EdgePreds(g0), Entry(g0, root), path + [EdgeOf(g0, b, side)], EdgeOf(g0, b, side))
  {
    var d := EdgeOf(g0, b, side);
    assert (path + [d])[..|path|] == path;
    assert Tail(g0, d) == b;
  }

  predicate Taken(g: Graph, S: set<Id>, ch: seq<Choice>, f: EdgeId)
    requires |ch| == |g|
  {
    f < 2 * |g| && Tail(g, f) in S && ch[Tail(g, f)] == Go(f < |g|)
  }

  /** Block child goes to target, or faults. */
  predicate LeadsTo(g: Graph, ch: seq<Choice>, child: Id, target: Id)
    requires child < |g| == |ch|
  {
    ch[child] == End(Fault) || (ch[child].Go? && g[child].s.Jmp? && g[child].Succ(ch[child].side) == target)
  }

  // The blocks above level l are as they were.
  predicate Untouched(g0: Graph, g1: Graph, S: set<Id>, level: seq<nat>, l: nat)
    requires |g0| == |g1| == |level|
  {
    forall b {:trigger g1[b]} :: b in S && b < |g1| && level[b] > l ==> g1[b] == g0[b]
  }

  /** Edge e is only reached along its dominators; if then its block goes on to target anyway,
      moving e there changes no result but a fault. */
  lemma {:induction false} MoveKeeps(g0: Graph, g1: Graph, S: set<Id>, level: seq<nat>, root: Id, ch: seq<Choice>, e: EdgeId, target: Id,
                                     path: seq<EdgeId>, b: Id)
    requires Descends(g1, S, level) && |ch| == |g1| == |g0| && e < 2 * |g1| && target < |g1| && target in S
    requires Descends(Moved(g1, e, target), S, level) && SameBlocks(g0, g1)
    requires Tail(g1, e) in S && g1[Tail(g1, e)].s.Jmp? && Untouched(g0, g1, S, level, level[Tail(g1, e)])
    requires b in S && Trodden(g0, S, root, ch, path, b)
    requires 0 <= Head(g1, e) < |g1|
    requires (forall f :: EdgeDominates(g0, root, f, e) ==> Taken(g0, S, ch, f)) ==> LeadsTo(g1, ch, Head(g1, e), target)
    ensures Walk(g1, S, level, ch, b) == Fault || Walk(Moved(g1, e, target), S, level, ch, b) == Walk(g1, S, level, ch, b)
    decreases level[b]
  {
    hide Trodden, EdgeDominates;
    var pred, side := Tail(g1, e), e < |g1|;
    if b == pred && ch[b] == Go(side) {
      Arrive(g0, S, root, ch, path, b, e);
      var child := Head(g1, e);
      Down(g1, S, level, pred, side);
      if ch[child] != End(Fault) {
        SameBelow(g1, S, level, e, target, ch, target) by { Down(Moved(g1, e, target), S, level, pred, side); MovedHead(g1, e, target, e); }
        MovedHead(g1, e, target, e);
      }
    } else if level[b] <= level[pred] {
      SameBelow(g1, S, level, e, target, ch, b);
    } else if ch[b].Go? && g1[b].s.Jmp? {
      Down(g1, S, level, b, ch[b].side);
      TreadOn(g0, S, root, ch, path, b, ch[b].side);
      MoveKeeps(g0, g1, S, level, root, ch, e, target, path + [EdgeOf(g0, b, ch[b].side)], g1[b].Succ(ch[b].side));
    }
  }

  /** Taking edge e after a path means all its dominators have been taken. */
  lemma {:induction false} Arrive(g0: Graph, S: set<Id>, root: Id, ch: seq<Choice>, path: seq<EdgeId>, b: Id, e: EdgeId)
    requires |ch| == |g0| && b < |g0| && b in S && Trodden(g0, S, root, ch, path, b) && e < 2 * |g0|
    requires b == Tail(g0, e) && ch[b] == Go(e < |g0|)
    ensures forall f :: EdgeDominates(g0, root, f, e) ==> Taken(g0, S, ch, f)
  {
    TreadOn(g0, S, root, ch, path, b, e < |g0|);
    var whole := path + [e];
    assert EdgeOf(g0, b, e < |g0|) == e;
    forall f | EdgeDominates(g0, root, f, e) ensures Taken(g0, S, ch, f) {
      assert PathTo(EdgePreds(g0), Entry(g0, root), whole, e);
      var i :| 0 <= i < |whole| && whole[i] == f;
    }
  }

  ghost predicate KeptAt(g1: Graph, g2: Graph, nm: Numbers, S: set<Id>, level: seq<nat>, root: Id, ch: seq<Choice>, p: Packet)
    requires Descends(g1, S, level) && Descends(g2, S, level) && root in S
  {
    Choices(g1, nm, S, ch, p) && |g2| == |g1| ==>
      Walk(g1, S, level, ch, root) == Fault || Walk(g2, S, level, ch, root) == Walk(g1, S, level, ch, root)
  }

  /** Every walk from the root that does not fault ends as before. */
  ghost predicate Kept(g1: Graph, g2: Graph, nm: Numbers, S: set<Id>, level: seq<nat>, root: Id) {
    && Descends(g1, S, level) && Descends(g2, S, level) && root in S && SameBlocks(g1, g2) && (Closed(g1) ==> Closed(g2))
    && (forall lv {:trigger Leveled(g2, lv)} :: Leveled(g1, lv) ==> Leveled(g2, lv))
    && forall ch, p :: KeptAt(g1, g2, nm, S, level, root, ch, p)
  }

  lemma {:induction false} ChoicesSame(g1: Graph, g2: Graph, nm: Numbers, S: set<Id>, ch: seq<Choice>, p: Packet)
    requires SameBlocks(g1, g2) && Choices(g1, nm, S, ch, p)
    ensures Choices(g2, nm, S, ch, p)
  {
    hide Eval;
    forall b | b in S ensures ChoiceAt(g2, nm, ch, p, b) {
      assert ChoiceAt(g1, nm, ch, p, b);
    }
  }

  lemma {:induction false} KeptThen(g1: Graph, g2: Graph, g3: Graph, nm: Numbers, S: set<Id>, level: seq<nat>, root: Id)
    requires Kept(g1, g2, nm, S, level, root) && Kept(g2, g3, nm, S, level, root)
    ensures Kept(g1, g3, nm, S, level, root)
  {
    hide Descends, Walk, Choices;
    forall ch, p ensures KeptAt(g1, g3, nm, S, level, root, ch, p) {
      assert KeptAt(g1, g2, nm, S, level, root, ch, p) && KeptAt(g2, g3, nm, S, level, root, ch, p);
      if Choices(g1, nm, S, ch, p) { ChoicesSame(g1, g2, nm, S, ch, p); }
    }
  }

  lemma {:induction false} KeptSelf(g: Graph, nm: Numbers, S: set<Id>, level: seq<nat>, root: Id)
    requires Descends(g, S, level) && root in S
    ensures Kept(g, g, nm, S, level, root)
  {
    hide Descends, Walk, Choices;
    forall ch, p ensures KeptAt(g, g, nm, S, level, root, ch, p) {
    }
  }

  /** A move justified by an edge dominator, or by a branch both of whose sides lead to target. */
  predicate Justified(g: Graph, nm: Numbers, dominators: set<EdgeId>, child: Id, target: Ref)
    requires Sized(g, nm) && child < |g|
  {
    || (g[child].s.Jmp? && g[child].jt == g[child].jf == target)
    || exists f :: f in dominators && f < 2 * |g| && FoldEdge(g, nm, child, f) == target
  }

  lemma {:induction false} JustifiedMove(g0: Graph, g1: Graph, nm: Numbers, S: set<Id>, level: seq<nat>, root: Id, e: EdgeId, target: Id,
                                         dominators: set<EdgeId>)
    requires Descends(g1, S, level) && SameBlocks(g0, g1) && Sized(g0, nm) && ConstsDistinct(nm.den) && root in S && root < |g0|
    requires e < 2 * |g1| && Tail(g1, e) in S && g1[Tail(g1, e)].s.Jmp? && Untouched(g0, g1, S, level, level[Tail(g1, e)])
    requires forall f :: f in dominators ==> EdgeDominates(g0, root, f, e)
    requires 0 <= Head(g1, e) < |g1| && Head(g1, e) in S && Justified(g1, nm, dominators, Head(g1, e), target)
    ensures g1[Head(g1, e)].s.Jmp? && target in S && level[target] < level[Head(g1, e)]
    ensures Kept(g1, Moved(g1, e, target), nm, S, level, root)
  {
    hide EdgeDominates, Walk, Eval;
    var child := Head(g1, e);
    var side := g1[child].jt == target;
    assert g1[child].s.Jmp? && g1[child].Succ(side) == target;
    Down(g1, S, level, child, side);
    MovedDescends(g1, S, level, e, side);
    MovedHead(g1, e, target, e);
    var g2 := Moved(g1, e, target);
    forall ch, p ensures KeptAt(g1, g2, nm, S, level, root, ch, p) {
      if Choices(g1, nm, S, ch, p) {
        if forall f :: EdgeDominates(g0, root, f, e) ==> Taken(g0, S, ch, f) {
          JustifiedLeads(g0, g1, nm, S, root, ch, p, e, target, dominators);
        }
        MoveKeeps(g0, g1, S, level, root, ch, e, target, [], root);
      }
    }
  }

  lemma {:induction false} JustifiedLeads(g0: Graph, g1: Graph, nm: Numbers, S: set<Id>, root: Id, ch: seq<Choice>, p: Packet, e: EdgeId, target: Id,
                                          dominators: set<EdgeId>)
    requires SameBlocks(g0, g1) && Choices(g1, nm, S, ch, p) && ConstsDistinct(nm.den) && e < 2 * |g1|
    requires forall f :: f in dominators ==> EdgeDominates(g0, root, f, e)
    requires forall f :: EdgeDominates(g0, root, f, e) ==> Taken(g0, S, ch, f)
    requires 0 <= Head(g1, e) < |g1| && Head(g1, e) in S && Justified(g1, nm, dominators, Head(g1, e), target)
    ensures LeadsTo(g1, ch, Head(g1, e), target)
  {
    hide EdgeDominates, Eval;
    var child := Head(g1, e);
    if g1[child].jt == g1[child].jf == target && g1[child].s.Jmp? {
      assert ChoiceAt(g1, nm, ch, p, child);
    } else {
      var f :| f in dominators && f < 2 * |g1| && FoldEdge(g1, nm, child, f) == target;
      assert Taken(g0, S, ch, f);
      FoldEdgeSound(g1, nm, S, ch, p, child, f);
    }
  }

  // What the passes before have computed, and is not changed here.
  datatype Facts = Facts(nm: Numbers, outUse: seq<set<Atom>>, edom: seq<set<EdgeId>>, level: seq<nat>, levels: seq<seq<Id>>)

  /** An atom still used after target ends with another number than it has at the end of pred. */
  predicate Conflict(fx: Facts, pred: Id, target: Id)
    requires pred < |fx.nm.val| && target < |fx.nm.val| == |fx.outUse|
  {
    exists a: Atom :: a in fx.outUse[target] && fx.nm.val[pred][a] != fx.nm.val[target][a]
  }

  ghost predicate Prepared(g0: Graph, fx: Facts, root: Id, reach: set<Id>) {
    && IsReach(g0, root, reach) && Leveling(g0, reach, fx.level, fx.levels)
    && Sized(g0, fx.nm) && ConstsDistinct(fx.nm.den) && |fx.outUse| == |g0| && |fx.edom| == 2 * |g0|
    && forall e, f :: 0 <= e < 2 * |g0| && Tail(g0, e) in reach && f in fx.edom[e] ==> f < 2 * |g0| && EdgeDominates(g0, root, f, e)
  }

  lemma {:induction false} PreparedDescends(g0: Graph, fx: Facts, root: Id, reach: set<Id>)
    requires Prepared(g0, fx, root, reach)
    ensures Descends(g0, reach, fx.level) && root in reach && root < |g0|
    ensures |g0| == |fx.nm.val| == |fx.nm.oval| == |fx.outUse| == |fx.level| == |fx.levels| && |fx.edom| == 2 * |g0|
  {
    forall b | b in reach ensures DownAt(g0, reach, fx.level, b) {
      if g0[b].s.Jmp? {
        LevelDescends(g0, reach, fx.level, fx.levels, b, g0[b].jt);
        LevelDescends(g0, reach, fx.level, fx.levels, b, g0[b].jf);
        assert g0[b].jt in SuccSet(g0, b) && g0[b].jf in SuccSet(g0, b);
      }
    }
  }

  predicate Fits(g: Graph, fx: Facts) {
    Sized(g, fx.nm) && |fx.outUse| == |fx.level| == |g| && |fx.edom| == 2 * |g|
  }

  /** Where the first dominator of e, from k on, that decides block h leads, if nothing used after it would be missing; or NIL. */
  function NextFold(g: Graph, fx: Facts, e: EdgeId, h: Id, k: nat): (r: Ref)
    requires Fits(g, fx) && e < 2 * |g| && h < |g|
    ensures r < |g|
    decreases 2 * |g| - k
  {
    if k >= 2 * |g| then NIL
    else
      var t := FoldEdge(g, fx.nm, h, k);
      if k in fx.edom[e] && 0 <= t < |g| && !Conflict(fx, Tail(g, e), t) then t else NextFold(g, fx, e, h, k + 1)
  }

  /** Where edge e ends up from block h on: past every branch its dominators decide. */
  function FoldedTo(g: Graph, fx: Facts, e: EdgeId, h: Id): (r: Id)
    requires Fits(g, fx) && e < 2 * |g| && h < |g|
    ensures r < |g|
    decreases fx.level[h]
  {
    var t := NextFold(g, fx, e, h, 0);
    if t == NIL || fx.level[t] >= fx.level[h] then h else FoldedTo(g, fx, e, t)
  }

  /** A branch with one target is skipped, if nothing used after the target would be missing. */
  function Skipped(g: Graph, fx: Facts, e: EdgeId, h: Id): (r: Id)
    requires Fits(g, fx) && e < 2 * |g| && h < |g|
    ensures r < |g|
  {
    var t := g[h].jt;
    if g[h].s.Jmp? && t == g[h].jf && 0 <= t < |g| && !Conflict(fx, Tail(g, e), t) then t else h
  }

  /** What becomes of edge e if it leads to h: a branch with one target is skipped, then decided branches are. */
  function Goal(g: Graph, fx: Facts, e: EdgeId, h: Id): (r: Id)
    requires Fits(g, fx) && e < 2 * |g| && h < |g|
    ensures r < |g|
  {
    FoldedTo(g, fx, e, Skipped(g, fx, e, h))
  }

  /** Edge e of g0 leads in g where it has to. */
  predicate Promoted(g0: Graph, g: Graph, fx: Facts, e: EdgeId) {
    && Fits(g, fx) && |g0| == |g| && e < 2 * |g| && 0 <= Head(g0, e) < |g|
    && Head(g, e) == Goal(g, fx, e, Head(g0, e))
  }

  predicate AllPromoted(g0: Graph, g: Graph, fx: Facts, S: set<Id>) {
    |g0| == |g|
    && forall e {:trigger Promoted(g0, g, fx, e)} :: 0 <= e < 2 * |g| && Tail(g, e) in S && g[Tail(g, e)].s.Jmp? ==> Promoted(g0, g, fx, e)
  }

  /** No dominator of e decides the block it now leads to, unless a value would be missing there. */
  predicate Settled(g: Graph, fx: Facts, e: EdgeId)
    requires Fits(g, fx) && e < 2 * |g| && 0 <= Head(g, e) < |g|
  {
    forall f {:trigger FoldEdge(g, fx.nm, Head(g, e), f)} :: 0 <= f < 2 * |g| && f in fx.edom[e] ==>
      var t := FoldEdge(g, fx.nm, Head(g, e), f); 0 <= t < |g| ==> Conflict(fx, Tail(g, e), t)
  }

  lemma {:induction false} NextFoldFacts(g: Graph, fx: Facts, e: EdgeId, h: Id, k: nat)
    requires Fits(g, fx) && e < 2 * |g| && h < |g|
    ensures var t := NextFold(g, fx, e, h, k);
      && (t != NIL ==> exists f :: 0 <= f < 2 * |g| && FoldEdge(g, fx.nm, h, f) == t)
      && (t == NIL ==> forall f {:trigger FoldEdge(g, fx.nm, h, f)} :: k <= f < 2 * |g| && f in fx.edom[e] ==>
           var u := FoldEdge(g, fx.nm, h, f); 0 <= u < |g| ==> Conflict(fx, Tail(g, e), u))
    decreases 2 * |g| - k
  {
    hide FoldEdge, Conflict;
    if k < 2 * |g| { NextFoldFacts(g, fx, e, h, k + 1); }
  }

  /** What FoldEdge says is a successor of the block. */
  lemma {:induction false} FoldDown(g: Graph, nm: Numbers, S: set<Id>, level: seq<nat>, h: Id, f: EdgeId)
    requires Sized(g, nm) && h < |g| && f < 2 * |g| && Descends(g, S, level) && h in S && FoldEdge(g, nm, h, f) != NIL
    ensures g[h].s.Jmp?
    ensures var t := FoldEdge(g, nm, h, f); (t == g[h].jt || t == g[h].jf) && 0 <= t < |g| && t in S && level[t] < level[h]
  {
    Down(g, S, level, h, true);
    Down(g, S, level, h, false);
  }

  /** A promoted edge is settled. */
  lemma {:induction false} FoldedSettled(g: Graph, fx: Facts, S: set<Id>, e: EdgeId, h: Id)
    requires Fits(g, fx) && Descends(g, S, fx.level) && e < 2 * |g| && h in S && h < |g| && Head(g, e) == FoldedTo(g, fx, e, h)
    ensures Settled(g, fx, e)
    decreases fx.level[h]
  {
    hide FoldEdge, Conflict, Descends;
    var t := NextFold(g, fx, e, h, 0);
    NextFoldFacts(g, fx, e, h, 0);
    if t != NIL {
      var f :| 0 <= f < 2 * |g| && FoldEdge(g, fx.nm, h, f) == t;
      FoldDown(g, fx.nm, S, fx.level, h, f);
      FoldedSettled(g, fx, S, e, t);
    }
  }

  lemma {:induction false} PromotedSettled(g0: Graph, g: Graph, fx: Facts, S: set<Id>, e: EdgeId)
    requires Promoted(g0, g, fx, e) && Descends(g, S, fx.level) && Head(g0, e) in S
    ensures Settled(g, fx, e)
  {
    hide FoldEdge, Conflict, Descends, FoldedTo;
    var h := Head(g0, e);
    if g[h].s.Jmp? { Down(g, S, fx.level, h, true); }
    FoldedSettled(g, fx, S, e, Skipped(g, fx, e, h));
  }

  // Block h, and all that edges can be moved to from there, are the same in both graphs.
  lemma {:induction false} NextFoldSame(g: Graph, g2: Graph, fx: Facts, e: EdgeId, h: Id, k: nat)
    requires Fits(g, fx) && SameBlocks(g, g2) && e < 2 * |g| && h < |g| && g2[h] == g[h]
    ensures NextFold(g2, fx, e, h, k) == NextFold(g, fx, e, h, k)
    decreases 2 * |g| - k
  {
    hide Conflict;
    if k < 2 * |g| { NextFoldSame(g, g2, fx, e, h, k + 1); }
  }

  lemma {:induction false} FoldedSame(g: Graph, g2: Graph, fx: Facts, S: set<Id>, e: EdgeId, h: Id, l: nat)
    requires Fits(g, fx) && Descends(g, S, fx.level) && SameBlocks(g, g2) && e < 2 * |g| && h in S && h < |g| && fx.level[h] < l
    requires forall c :: c in S && fx.level[c] < l ==> g2[c] == g[c]
    ensures FoldedTo(g2, fx, e, h) == FoldedTo(g, fx, e, h)
    decreases fx.level[h]
  {
    hide FoldEdge, Conflict, Descends, NextFold;
    var t := NextFold(g, fx, e, h, 0);
    NextFoldSame(g, g2, fx, e, h, 0);
    NextFoldFacts(g, fx, e, h, 0);
    if t != NIL {
      var f :| 0 <= f < 2 * |g| && FoldEdge(g, fx.nm, h, f) == t;
      FoldDown(g, fx.nm, S, fx.level, h, f);
      FoldedSame(g, g2, fx, S, e, t, l);
    }
  }

  lemma {:induction false} GoalSame(g: Graph, g2: Graph, fx: Facts, S: set<Id>, e: EdgeId, h: Id, l: nat)
    requires Fits(g, fx) && Descends(g, S, fx.level) && SameBlocks(g, g2) && e < 2 * |g| && h in S && h < |g| && fx.level[h] < l
    requires forall c :: c in S && fx.level[c] < l ==> g2[c] == g[c]
    ensures Goal(g2, fx, e, h) == Goal(g, fx, e, h)
  {
    hide Conflict, FoldedTo, Descends;
    if g[h].s.Jmp? { Down(g, S, fx.level, h, true); }
    FoldedSame(g, g2, fx, S, e, Skipped(g, fx, e, h), l);
  }

  /** Moving edge d leaves all blocks below it as they are. */
  lemma {:induction false} BelowSame(g: Graph, g2: Graph, d: EdgeId)
    requires SameBlocks(g, g2) && HeadsExcept(g, g2, d) && d < 2 * |g|
    ensures forall c :: 0 <= c < |g| && c != Tail(g, d) ==> g2[c] == g[c]
  {
    forall c | 0 <= c < |g| && c != Tail(g, d) ensures g2[c] == g[c] {
      assert Head(g2, EdgeOf(g, c, true)) == Head(g, EdgeOf(g, c, true));
      assert Head(g2, EdgeOf(g, c, false)) == Head(g, EdgeOf(g, c, false));
    }
  }

  /** Moving edge d of a block at least as high leaves edge e promoted. */
  lemma {:induction false} PromotedSame(g0: Graph, g: Graph, g2: Graph, fx: Facts, S: set<Id>, e: EdgeId, d: EdgeId)
    requires Descends(g0, S, fx.level) && Descends(g, S, fx.level) && SameBlocks(g0, g) && SameBlocks(g, g2) && e != d && d < 2 * |g|
    requires Promoted(g0, g, fx, e) && Tail(g, e) in S && g[Tail(g, e)].s.Jmp? && fx.level[Tail(g, e)] <= fx.level[Tail(g, d)]
    requires HeadsExcept(g, g2, d)
    ensures Promoted(g0, g2, fx, e)
  {
    hide Goal;
    Down(g0, S, fx.level, Tail(g, e), e < |g|);
    BelowSame(g, g2, d);
    GoalSame(g, g2, fx, S, e, Head(g0, e), fx.level[Tail(g, d)]);
  }

  lemma {:induction false} BothPromoted(g0: Graph, was: Graph, mid: Graph, now: Graph, fx: Facts, S: set<Id>, done: set<Id>, b: Id)
    requires Descends(g0, S, fx.level) && Descends(was, S, fx.level) && Descends(mid, S, fx.level)
    requires SameBlocks(g0, was) && SameBlocks(was, mid) && SameBlocks(mid, now)
    requires AllPromoted(g0, was, fx, done) && b < |was| && b in S && done <= S
    requires forall c :: c in done ==> c < |was| && fx.level[c] <= fx.level[b]
    requires HeadsExcept(was, mid, EdgeOf(was, b, true)) && HeadsExcept(mid, now, EdgeOf(was, b, false))
    requires was[b].s.Jmp? && Promoted(g0, mid, fx, EdgeOf(was, b, true)) && Promoted(g0, now, fx, EdgeOf(was, b, false))
    ensures AllPromoted(g0, now, fx, done + {b})
  {
    hide Promoted, Descends;
    var t, f := EdgeOf(was, b, true), EdgeOf(was, b, false);
    assert SameBlocks(g0, mid);
    forall e | 0 <= e < 2 * |was| && Tail(was, e) in done + {b} && was[Tail(was, e)].s.Jmp? ensures Promoted(g0, now, fx, e) {
      if e != t && e != f { PromotedSame(g0, was, mid, fx, S, e, t); }
      if e != f { PromotedSame(g0, mid, now, fx, S, e, f); }
    }
  }

  lemma {:induction false} GoalLeaf(g: Graph, fx: Facts, e: EdgeId, h: Id)
    requires Fits(g, fx) && e < 2 * |g| && h < |g| && !g[h].s.Jmp?
    ensures FoldedTo(g, fx, e, h) == Goal(g, fx, e, h) == h
  {
    hide Conflict;
    NextFoldFacts(g, fx, e, h, 0);
  }

  lemma {:induction false} FoldStep(g: Graph, fx: Facts, e: EdgeId, h: Id, k: nat)
    requires Fits(g, fx) && e < 2 * |g| && h < |g| && k < 2 * |g|
    ensures var t := FoldEdge(g, fx.nm, h, k);
      NextFold(g, fx, e, h, k) == if k in fx.edom[e] && 0 <= t < |g| && !Conflict(fx, Tail(g, e), t) then t else NextFold(g, fx, e, h, k + 1)
  {
    hide FoldEdge, Conflict;
  }

  lemma {:induction false} FoldEnd(g: Graph, fx: Facts, e: EdgeId, h: Id, k: nat)
    requires Fits(g, fx) && e < 2 * |g| && h < |g| && k >= 2 * |g| && NextFold(g, fx, e, h, 0) == NextFold(g, fx, e, h, k)
    ensures FoldedTo(g, fx, e, h) == h
  {
    hide FoldEdge, Conflict;
  }

  /** After the skip, only folding is left to be done. */
  lemma {:induction false} GoalStart(was: Graph, now: Graph, fx: Facts, S: set<Id>, e: EdgeId)
    requires Fits(was, fx) && SameBlocks(was, now) && HeadsExcept(was, now, e) && e < 2 * |was| && Descends(was, S, fx.level)
    requires Tail(was, e) in S && was[Tail(was, e)].s.Jmp? && 0 <= Head(was, e) < |was| && Head(now, e) == Skipped(was, fx, e, Head(was, e))
    ensures Goal(now, fx, e, Head(was, e)) == FoldedTo(now, fx, e, Head(now, e))
  {
    hide FoldedTo, Conflict;
    Down(was, S, fx.level, Tail(was, e), e < |was|);
    BelowSame(was, now, e);
  }

  /** After a move, folding goes on from the target. */
  lemma {:induction false} GoalMoved(was: Graph, now: Graph, fx: Facts, S: set<Id>, e: EdgeId, h: Id, target: Id)
    requires Fits(was, fx) && SameBlocks(was, now) && HeadsExcept(was, now, e) && e < 2 * |was| && Descends(was, S, fx.level)
    requires Tail(was, e) in S && was[Tail(was, e)].s.Jmp? && 0 <= Head(was, e) < |was| && h in S && fx.level[h] < fx.level[Tail(was, e)]
    requires Goal(was, fx, e, h) == FoldedTo(was, fx, e, Head(was, e))
    requires NextFold(was, fx, e, Head(was, e), 0) == target && target in S && target < |was| && fx.level[target] < fx.level[Head(was, e)]
    ensures Goal(now, fx, e, h) == FoldedTo(now, fx, e, target)
  {
    hide NextFold, Goal, Conflict;
    Down(was, S, fx.level, Tail(was, e), e < |was|);
    BelowSame(was, now, e);
    GoalSame(was, now, fx, S, e, h, fx.level[Tail(was, e)]);
    FoldedSame(was, now, fx, S, e, target, fx.level[Tail(was, e)]);
  }

  lemma {:induction false} PromotedFrom(was: Graph, g0: Graph, g: Graph, fx: Facts, e: EdgeId)
    requires Promoted(was, g, fx, e) && |g0| == |was| && Head(g0, e) == Head(was, e)
    ensures Promoted(g0, g, fx, e)
  {
    hide Goal;
  }

  lemma {:induction false} AllWaiting(g: Graph, done: set<Id>)
    ensures Waiting(g, g, done)
  {
  }

  // The blocks outside done are as they were.
  predicate Waiting(g0: Graph, g: Graph, done: set<Id>) {
    |g| == |g0| && forall b {:trigger g[b]} :: 0 <= b < |g| && b !in done ==> g[b] == g0[b]
  }

  lemma {:induction false} WaitingNext(g0: Graph, was: Graph, mid: Graph, now: Graph, done: set<Id>, b: Id)
    requires Waiting(g0, was, done) && b < |was| && SameBlocks(was, mid) && SameBlocks(mid, now)
    requires HeadsExcept(was, mid, EdgeOf(was, b, true)) && HeadsExcept(mid, now, EdgeOf(was, b, false))
    ensures Waiting(g0, now, done + {b})
  {
    BelowSame(was, mid, EdgeOf(was, b, true));
    BelowSame(mid, now, EdgeOf(was, b, false));
  }

  lemma {:induction false} PreparedUnder(g0: Graph, fx: Facts, root: Id, reach: set<Id>)
    requires Prepared(g0, fx, root, reach)
    ensures root < |fx.level| == |fx.levels| && fx.level[root] < |fx.levels| && forall b :: b in reach ==> b < |fx.level|
    ensures Under(reach, fx.level, fx.levels, fx.level[root] + 1, 0) == reach
    ensures AllPromoted(g0, g0, fx, Under(reach, fx.level, fx.levels, 1, 0))
  {
    UnderEnds(g0, root, reach, fx.level, fx.levels);
  }

  lemma {:induction false} PreparedNext(g0: Graph, fx: Facts, root: Id, reach: set<Id>, i: nat, j: nat)
    requires Prepared(g0, fx, root, reach) && 0 < i < |g0| == |fx.levels| && j < |fx.levels[i]|
    ensures forall b :: b in reach ==> b < |fx.level|
    ensures var b, done := fx.levels[i][j], Under(reach, fx.level, fx.levels, i, j);
      && b in reach && b < |g0| == |fx.level| && fx.level[b] == i && g0[b].s.Jmp? && b !in done
      && done <= reach && Under(reach, fx.level, fx.levels, i, j + 1) == done + {b}
      && forall c :: c in done ==> c < |g0| && fx.level[c] <= i
  {
    UnderNext(g0, reach, fx.level, fx.levels, i, j);
    var b := fx.levels[i][j];
    assert OnLevel(fx.levels, fx.level, reach, i, b);
    forall c | c in Under(reach, fx.level, fx.levels, i, j) ensures fx.level[c] <= i {
      assert OnLevel(fx.levels, fx.level, reach, i, c);
    }
  }

  lemma {:induction false} PreparedDrop(g0: Graph, fx: Facts, root: Id, reach: set<Id>, i: nat)
    requires Prepared(g0, fx, root, reach) && i < |g0| == |fx.levels|
    ensures forall b :: b in reach ==> b < |fx.level|
    ensures Under(reach, fx.level, fx.levels, i, |fx.levels[i]|) == Under(reach, fx.level, fx.levels, i + 1, 0)
  {
    UnderDrop(g0, reach, fx.level, fx.levels, i);
  }

  class EdgeFolder {
    var node: Graph
    const fx: Facts

    constructor (g: Graph, facts: Facts)
      ensures node == g && fx == facts
    {
      node, fx := g, facts;
    }

    /** Compare the numbers of the atoms used after target. */
    method UseConflict(pred: Id, target: Id) returns (r: bool)
      requires pred < |fx.nm.val| && target < |fx.nm.val| == |fx.outUse|
      ensures r <==> Conflict(fx, pred, target)
    {
      var a := 0;
      while a < N_ATOMS
        invariant 0 <= a <= N_ATOMS
        invariant forall b: Atom :: b < a && b in fx.outUse[target] ==> fx.nm.val[pred][b] == fx.nm.val[target][b]
      {
        if a in fx.outUse[target] && fx.nm.val[pred][a] != fx.nm.val[target][a] { return true; }
        a := a + 1;
      }
      return false;
    }

    // The sweep so far: results kept, levels falling, blocks above level l as they were.
    ghost predicate Swept(g0: Graph, root: Id, reach: set<Id>, l: int)
      reads this
    {
      && Kept(g0, node, fx.nm, reach, fx.level, root)
      && forall b {:trigger node[b]} :: b in reach && b < |node| && fx.level[b] > l ==> node[b] == g0[b]
    }

    /** Move edge e to target. */
    method MoveEdge(e: EdgeId, target: Id, ghost g0: Graph, ghost root: Id, ghost reach: set<Id>)
      requires Prepared(g0, fx, root, reach) && e < 2 * |g0| && Tail(g0, e) in reach && |node| == |g0|
      requires Swept(g0, root, reach, fx.level[Tail(g0, e)])
      requires node[Tail(g0, e)].s.Jmp? && 0 <= Head(node, e) < |node| && Head(node, e) in reach
      requires Justified(node, fx.nm, fx.edom[e], Head(node, e), target)
      modifies `node
      ensures target < |node| && node == Moved(old(node), e, target) && Swept(g0, root, reach, fx.level[Tail(g0, e)])
      ensures target in reach && fx.level[target] < fx.level[Head(old(node), e)]
    {
      hide EdgeDominates, Leveling, IsReach, Justified, Choices;
      PreparedDescends(g0, fx, root, reach);
      JustifiedMove(g0, node, fx.nm, reach, fx.level, root, e, target, fx.edom[e]);
      MovedHead(node, e, target, e);
      var b := Tail(node, e);
      if e < |node| {
        node := node[b := node[b].(jt := target)];
      } else {
        node := node[b := node[b].(jf := target)];
      }
      KeptThen(g0, old(node), node, fx.nm, reach, fx.level, root);
    }

    /** If both sides of the branch at the end of edge e lead to one block, move e there. */
    method SkipTwin(e: EdgeId, ghost g0: Graph, ghost root: Id, ghost reach: set<Id>)
      requires Prepared(g0, fx, root, reach) && e < 2 * |g0| && Tail(g0, e) in reach && |node| == |g0| == |fx.level|
      requires Swept(g0, root, reach, fx.level[Tail(g0, e)]) && g0[Tail(g0, e)].s.Jmp?
      requires 0 <= Head(node, e) < |node| && node[Head(node, e)].s.Jmp?
      modifies `node
      ensures |node| == |g0| && Swept(g0, root, reach, fx.level[Tail(g0, e)]) && HeadsExcept(old(node), node, e)
      ensures Fits(node, fx) && 0 <= Head(old(node), e) < |node| && Head(node, e) == Skipped(old(node), fx, e, Head(old(node), e))
    {
      hide Swept, EdgeDominates, Leveling, IsReach, Justified, FoldEdge, Conflict, Moved;
      PreparedDescends(g0, fx, root, reach);
      HeadFacts(g0, root, reach, e);
      var child := Head(node, e);
      if node[child].jt == node[child].jf {
        var c := UseConflict(Tail(node, e), node[child].jt);
        if !c {
          JustifiedTwin(node, fx.nm, fx.edom[e], child);
          MovedHeads(node, e, node[child].jt);
          MoveEdge(e, node[child].jt, g0, root, reach);
        }
      }
    }

    /** Skip a branch with one target, then promote the edge past every branch its dominators decide. */
    method OptJ(e: EdgeId, ghost g0: Graph, ghost root: Id, ghost reach: set<Id>)
      requires Prepared(g0, fx, root, reach) && e < 2 * |g0| && Tail(g0, e) in reach && |node| == |g0| == |fx.level|
      requires Swept(g0, root, reach, fx.level[Tail(g0, e)]) && g0[Tail(g0, e)].s.Jmp?
      modifies `node
      ensures |node| == |g0| && Swept(g0, root, reach, fx.level[Tail(g0, e)]) && HeadsExcept(old(node), node, e)
      ensures Promoted(old(node), node, fx, e)
    {
      hide Prepared, Swept, EdgeDominates, Leveling, IsReach, Justified, FoldEdge, Conflict, Moved, HeadsExcept, Goal, FoldedTo, NextFold, Skipped;
      PreparedDescends(g0, fx, root, reach);
      HeadFacts(g0, root, reach, e);
      HeadsSelf(node, e);
      ghost var h := Head(node, e);
      if !node[Head(node, e)].s.Jmp? {
        GoalLeaf(node, fx, e, Head(node, e));
        return;
      }
      SkipTwin(e, g0, root, reach);
      HeadFacts(g0, root, reach, e);
      GoalStart(old(node), node, fx, reach, e);
      var k := 0;
      while k < 2 * |node|
        invariant 0 <= k <= 2 * |node| && |node| == |g0| && Swept(g0, root, reach, fx.level[Tail(g0, e)])
        invariant HeadsExcept(old(node), node, e) && 0 <= Head(node, e) < |node|
        invariant Goal(node, fx, e, h) == FoldedTo(node, fx, e, Head(node, e))
        invariant NextFold(node, fx, e, Head(node, e), 0) == NextFold(node, fx, e, Head(node, e), k)
        decreases fx.level[Head(node, e)], 2 * |node| - k
      {
        HeadFacts(g0, root, reach, e);
        FoldStep(node, fx, e, Head(node, e), k);
        if k in fx.edom[e] {
          var target := FoldEdge(node, fx.nm, Head(node, e), k);
          if target != NIL {
            JustifiedFold(node, fx.nm, fx.edom[e], Head(node, e), k);
            TargetFacts(node, fx.nm, fx.edom[e], Head(node, e), target);
            var c := UseConflict(Tail(node, e), target);
            if !c {
              ghost var was := node;
              MovedHeads(node, e, target);
              MovedHead(node, e, target, e);
              HeadsThen(old(node), node, Moved(node, e, target), e);
              MoveEdge(e, target, g0, root, reach);
              GoalMoved(was, node, fx, reach, e, h, target);
              HeadFacts(g0, root, reach, e);
              if !node[target].s.Jmp? {
                GoalLeaf(node, fx, e, target);
                return;
              }
              k := 0;
              continue;
            }
          }
        }
        k := k + 1;
      }
      FoldEnd(node, fx, e, Head(node, e), k);
    }

    /** Promote the edges of every branch, bottom level first. */
    method FoldEdges(root: Id, ghost reach: set<Id>)
      requires Prepared(node, fx, root, reach)
      modifies `node
      ensures Kept(old(node), node, fx.nm, reach, fx.level, root)
      ensures AllPromoted(old(node), node, fx, reach) && Waiting(old(node), node, reach)
    {
      hide Prepared, EdgeDominates, Leveling, IsReach, Under, Kept, AllPromoted, Waiting;
      ghost var g0 := node;
      PreparedDescends(node, fx, root, reach);
      PreparedUnder(node, fx, root, reach);
      KeptSelf(node, fx.nm, reach, fx.level, root);
      AllWaiting(node, Under(reach, fx.level, fx.levels, 1, 0));
      var i := 1;
      while i <= fx.level[root]
        invariant 1 <= i <= fx.level[root] + 1 <= |fx.levels| == |node| == |g0| && Swept(g0, root, reach, i)
        invariant AllPromoted(g0, node, fx, Under(reach, fx.level, fx.levels, i, 0))
        invariant Waiting(g0, node, Under(reach, fx.level, fx.levels, i, 0))
      {
        var j := 0;
        while j < |fx.levels[i]|
          invariant 0 <= j <= |fx.levels[i]| && |node| == |g0| && Swept(g0, root, reach, i)
          invariant AllPromoted(g0, node, fx, Under(reach, fx.level, fx.levels, i, j))
          invariant Waiting(g0, node, Under(reach, fx.level, fx.levels, i, j))
        {
          PreparedNext(g0, fx, root, reach, i, j);
          OptBoth(fx.levels[i][j], Under(reach, fx.level, fx.levels, i, j), g0, root, reach);
          j := j + 1;
        }
        PreparedDrop(g0, fx, root, reach, i);
        i := i + 1;
      }
    }

    /** Promote both edges of block b. */
    method OptBoth(b: Id, ghost done: set<Id>, ghost g0: Graph, ghost root: Id, ghost reach: set<Id>)
      requires Prepared(g0, fx, root, reach) && b in reach && b < |g0| == |node| == |fx.level| && g0[b].s.Jmp? && b !in done
      requires Swept(g0, root, reach, fx.level[b]) && AllPromoted(g0, node, fx, done) && Waiting(g0, node, done)
      requires done <= reach && forall c :: c in done ==> c < |g0| && fx.level[c] <= fx.level[b]
      modifies `node
      ensures |node| == |g0| && Swept(g0, root, reach, fx.level[b])
      ensures AllPromoted(g0, node, fx, done + {b}) && Waiting(g0, node, done + {b})
    {
      hide Prepared, EdgeDominates, Leveling, IsReach, Promoted, AllPromoted, Descends, KeptAt;
      PreparedDescends(g0, fx, root, reach);
      ghost var was := node;
      OptJ(EdgeOf(node, b, true), g0, root, reach);
      ghost var mid := node;
      OptJ(EdgeOf(node, b, false), g0, root, reach);
      PromotedFrom(was, g0, mid, fx, EdgeOf(was, b, true));
      PromotedFrom(mid, g0, node, fx, EdgeOf(was, b, false));
      BothPromoted(g0, was, mid, node, fx, reach, done, b);
      WaitingNext(g0, was, mid, node, done, b);
    }

    lemma {:induction false} HeadFacts(g0: Graph, root: Id, reach: set<Id>, e: EdgeId)
      requires Prepared(g0, fx, root, reach) && e < 2 * |g0| && Tail(g0, e) in reach && |node| == |g0| == |fx.level|
      requires Swept(g0, root, reach, fx.level[Tail(g0, e)]) && g0[Tail(g0, e)].s.Jmp?
      ensures node[Tail(g0, e)].s.Jmp? && 0 <= Head(node, e) < |node| && Head(node, e) in reach && Sized(node, fx.nm)
      ensures node[Head(node, e)].s.Jmp? ==> 0 <= node[Head(node, e)].jt < |node| && 0 <= node[Head(node, e)].jf < |node|
      ensures SameBlocks(g0, node) && Descends(node, reach, fx.level) && Fits(node, fx)
      ensures fx.level[Head(node, e)] < fx.level[Tail(node, e)]
    {
      hide EdgeDominates, Leveling, IsReach;
      assert node[Tail(g0, e)].s == g0[Tail(g0, e)].s;
      Down(node, reach, fx.level, Tail(g0, e), e < |g0|);
      if node[Head(node, e)].s.Jmp? {
        Down(node, reach, fx.level, Head(node, e), true);
        Down(node, reach, fx.level, Head(node, e), false);
      }
    }
  }

  lemma {:induction false} TargetFacts(g: Graph, nm: Numbers, dominators: set<EdgeId>, child: Id, target: Ref)
    requires Sized(g, nm) && child < |g| && Justified(g, nm, dominators, child, target)
    requires g[child].s.Jmp? ==> 0 <= g[child].jt < |g| && 0 <= g[child].jf < |g|
    ensures target != NIL ==> 0 <= target < |g|
  {
  }

  // Only edge e may lead elsewhere.
  predicate HeadsExcept(g: Graph, g2: Graph, e: EdgeId) {
    |g| == |g2| && forall d :: 0 <= d < 2 * |g| && d != e ==> Head(g2, d) == Head(g, d)
  }

  lemma {:induction false} HeadsSelf(g: Graph, e: EdgeId)
    ensures HeadsExcept(g, g, e)
  {
  }

  lemma {:induction false} HeadsThen(g: Graph, g2: Graph, g3: Graph, e: EdgeId)
    requires HeadsExcept(g, g2, e) && HeadsExcept(g2, g3, e)
    ensures HeadsExcept(g, g3, e)
  {
  }

  lemma {:induction false} MovedHeads(g: Graph, e: EdgeId, target: Id)
    requires e < 2 * |g|
    ensures HeadsExcept(g, Moved(g, e, target), e) && Head(Moved(g, e, target), e) == target
  {
  }

  lemma {:induction false} JustifiedTwin(g: Graph, nm: Numbers, dominators: set<EdgeId>, child: Id)
    requires Sized(g, nm) && child < |g| && g[child].s.Jmp? && g[child].jt == g[child].jf >= 0
    ensures Justified(g, nm, dominators, child, g[child].jt)
  {
  }

  lemma {:induction false} JustifiedFold(g: Graph, nm: Numbers, dominators: set<EdgeId>, child: Id, f: EdgeId)
    requires Sized(g, nm) && child < |g| && f in dominators && f < 2 * |g| && FoldEdge(g, nm, child, f) != NIL
    ensures Justified(g, nm, dominators, child, FoldEdge(g, nm, child, f))
  {
  }
}
