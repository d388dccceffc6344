/** Boolean combinations of test blocks: what they mean, and how a finished graph links them. */
module Trees {
  import opened Bpf
  import opened Blocks
  import opened Layout

  // The and/or/not tree that the calls of the generator have built so far.
  datatype Tree = Leaf(b: Id) | And(l: Tree, r: Tree) | Or(l: Tree, r: Tree) | Not(t: Tree)

  /** The test blocks, left to right. */
  function Leaves(t: Tree): (s: seq<Id>)
    ensures |s| > 0
  {
    match t
    case Leaf(b) => [b]
    case And(l, r) => Leaves(l) + Leaves(r)
    case Or(l, r) => Leaves(l) + Leaves(r)
    case Not(u) => Leaves(u)
  }

  function First(t: Tree): Id { Leaves(t)[0] }
  function Last(t: Tree): Id { Leaves(t)[|Leaves(t)| - 1] }

  // Where one side of a block goes: to a block, or out of the tree.
  datatype Target = Goto(b: Ref) | Out(sense: bool)

  /** The links of block b when the true and false exits of t go to yes and no. */
  function Link(t: Tree, b: Id, side: bool, yes: Target, no: Target): Target {
    match t
    case Leaf(_) => if side then yes else no
    case And(l, r) => if b in Leaves(l) then Link(l, b, side, Goto(First(r)), no) else Link(r, b, side, yes, no)
    case Or(l, r) => if b in Leaves(l) then Link(l, b, side, yes, Goto(First(r))) else Link(r, b, side, yes, no)
    case Not(u) => Link(u, b, side, no, yes)
  }

  /** The side of b that a true outcome of t would leave through. */
  function Pol(t: Tree, b: Id): bool {
    match t
    case Leaf(_) => true
    case And(l, r) => if b in Leaves(l) then Pol(l, b) else Pol(r, b)
    case Or(l, r) => if b in Leaves(l) then Pol(l, b) else Pol(r, b)
    case Not(u) => !Pol(u, b)
  }

  /** The blocks that leave the tree with outcome w, in the order the generator chains them. */
  function Exits(t: Tree, w: bool): seq<Id> {
    match t
    case Leaf(b) => [b]
    case And(l, r) => if w then Exits(r, true) else Exits(r, false) + Exits(l, false)
    case Or(l, r) => if w then Exits(r, true) + Exits(l, true) else Exits(r, false)
    case Not(u) => Exits(u, !w)
  }

  predicate Distinct(t: Tree) { NoDup(Leaves(t)) }

  lemma {:induction false} DistinctParts(l: Tree, r: Tree)
    requires NoDup(Leaves(l) + Leaves(r))
    ensures Distinct(l) && Distinct(r) && forall b :: b in Leaves(l) ==> b !in Leaves(r)
  {
    var s := Leaves(l) + Leaves(r);
    forall i, j | 0 <= i < j < |Leaves(l)| ensures Leaves(l)[i] != Leaves(l)[j] {
      assert s[i] != s[j];
    }
    forall i, j | 0 <= i < j < |Leaves(r)| ensures Leaves(r)[i] != Leaves(r)[j] {
      assert s[|Leaves(l)| + i] != s[|Leaves(l)| + j];
    }
    forall i, j | 0 <= i < |Leaves(l)| && 0 <= j < |Leaves(r)| ensures Leaves(l)[i] != Leaves(r)[j] {
      assert s[i] != s[|Leaves(l)| + j];
    }
  }

  function Redirect(x: Target, yes: Target, no: Target): Target {
    match x
    case Goto(_) => x
    case Out(w) => if w then yes else no
  }

  /** Links with open exits determine the links for any choice of exits. */
  lemma {:induction false} LinkRedirect(t: Tree, b: Id, side: bool, yes: Target, no: Target)
    ensures Link(t, b, side, yes, no) == Redirect(Link(t, b, side, Out(true), Out(false)), yes, no)
  {
    match t
    case Leaf(_) =>
    case And(l, r) =>
      if b in Leaves(l) {
        LinkRedirect(l, b, side, Goto(First(r)), no);
        LinkRedirect(l, b, side, Goto(First(r)), Out(false));
      } else {
        LinkRedirect(r, b, side, yes, no);
      }
    case Or(l, r) =>
      if b in Leaves(l) {
        LinkRedirect(l, b, side, yes, Goto(First(r)));
        LinkRedirect(l, b, side, Out(true), Goto(First(r)));
      } else {
        LinkRedirect(r, b, side, yes, no);
      }
    case Not(u) =>
      LinkRedirect(u, b, side, no, yes);
      LinkRedirect(u, b, side, Out(false), Out(true));
  }

  function Open(t: Tree, b: Id, side: bool): Target { Link(t, b, side, Out(true), Out(false)) }

  lemma {:induction false} NoDupJoin(x: seq<Id>, y: seq<Id>)
    requires NoDup(x) && NoDup(y)
    requires forall b :: b in y ==> b !in x
    ensures NoDup(x + y)
  {
    forall i, j | 0 <= i < j < |x + y| ensures (x + y)[i] != (x + y)[j] {
      if i < |x| <= j { assert y[j - |x|] in y; }
    }
  }

  /** The chains of the two outcomes: duplicate-free, inside the tree, starting at the last block. */
  lemma {:induction false} ExitsShape(t: Tree, w: bool)
    requires Distinct(t)
    ensures |Exits(t, w)| > 0 && Exits(t, w)[0] == Last(t) && NoDup(Exits(t, w))
    ensures forall b :: b in Exits(t, w) ==> b in Leaves(t)
  {
    match t
    case Leaf(_) =>
    case And(l, r) => DistinctParts(l, r); ExitsShape(l, w); ExitsShape(r, w); NoDupJoin(Exits(r, w), Exits(l, w));
    case Or(l, r) => DistinctParts(l, r); ExitsShape(l, w); ExitsShape(r, w); NoDupJoin(Exits(r, w), Exits(l, w));
    case Not(u) => ExitsShape(u, !w);
  }

  /** A side of a block is an open exit exactly when the block is in that chain, on the side Pol says. */
  lemma {:induction false} ExitsExact(t: Tree, b: Id, w: bool)
    requires Distinct(t) && b in Leaves(t)
    ensures b in Exits(t, w) <==> Open(t, b, Pol(t, b) == w) == Out(w)
    ensures Open(t, b, Pol(t, b) == w) != Out(!w)
    decreases t
  {
    var side := Pol(t, b) == w;
    match t
    case Leaf(_) =>
    case And(l, r) =>
      DistinctParts(l, r);
      if b in Leaves(l) {
        ExitsExact(l, b, w);
        LinkRedirect(l, b, side, Goto(First(r)), Out(false));
        ExitsShape(r, w);
      } else {
        ExitsExact(r, b, w);
        ExitsShape(l, w);
      }
    case Or(l, r) =>
      DistinctParts(l, r);
      if b in Leaves(l) {
        ExitsExact(l, b, w);
        LinkRedirect(l, b, side, Out(true), Goto(First(r)));
        ExitsShape(r, w);
      } else {
        ExitsExact(r, b, w);
        ExitsShape(l, w);
      }
    case Not(u) =>
      ExitsExact(u, b, !w);
      LinkRedirect(u, b, side, Out(false), Out(true));
  }

  /** Only the last block is in both chains. */
  lemma {:induction false} ExitsMeet(t: Tree, b: Id)
    requires Distinct(t) && b in Exits(t, true) && b in Exits(t, false)
    ensures b == Last(t)
  {
    match t
    case Leaf(_) =>
    case And(l, r) =>
      DistinctParts(l, r); ExitsShape(l, false); ExitsShape(r, true);
      ExitsMeet(r, b);
    case Or(l, r) =>
      DistinctParts(l, r); ExitsShape(l, true); ExitsShape(r, false);
      ExitsMeet(r, b);
    case Not(u) => ExitsMeet(u, b);
  }

  // The result of evaluating a tree: a fault, or an outcome and the state it leaves.
  datatype Verdict = Stop(o: Outcome) | Says(holds: bool, st: State)

  /** Left-to-right short-circuit evaluation. */
  function Eval(g: Graph, t: Tree, st: State, p: Packet): Verdict
    requires Within(g, Leaves(t))
  {
    match t
    case Leaf(b) =>
      assert Leaves(t)[0] == b;
      (match Land(g[b], st, p) case Done(o) => Stop(o) case Next(side, st') => Says(side, st'))
    case And(l, r) =>
      WithinParts(g, l, r);
      (match Eval(g, l, st, p)
       case Stop(o) => Stop(o)
       case Says(h, st') => if h then Eval(g, r, st', p) else Says(false, st'))
    case Or(l, r) =>
      WithinParts(g, l, r);
      (match Eval(g, l, st, p)
       case Stop(o) => Stop(o)
       case Says(h, st') => if h then Says(true, st') else Eval(g, r, st', p))
    case Not(u) =>
      (match Eval(g, u, st, p) case Stop(o) => Stop(o) case Says(h, st') => Says(!h, st'))
  }

  lemma {:induction false} WithinParts(g: Graph, l: Tree, r: Tree)
    requires Within(g, Leaves(l) + Leaves(r))
    ensures Within(g, Leaves(l)) && Within(g, Leaves(r))
  {
    var s := Leaves(l) + Leaves(r);
    assert forall i :: 0 <= i < |Leaves(l)| ==> s[i] == Leaves(l)[i];
    assert forall i :: 0 <= i < |Leaves(r)| ==> s[|Leaves(l)| + i] == Leaves(r)[i];
  }

  predicate LinkedAt(g: Graph, t: Tree, b: Id, yes: Ref, no: Ref)
    requires b < |g|
  {
    && g[b].s.Jmp?
    && Link(t, b, true, Goto(yes), Goto(no)) == Goto(g[b].jt)
    && Link(t, b, false, Goto(yes), Goto(no)) == Goto(g[b].jf)
  }

  /** The blocks of t are branches linked as Link says, to yes and no. */
  predicate Linked(g: Graph, t: Tree, yes: Ref, no: Ref) {
    && Within(g, Leaves(t))
    && forall b {:trigger LinkedAt(g, t, b, yes, no)} :: b in Leaves(t) ==> LinkedAt(g, t, b, yes, no)
  }

  /** The number of tests that evaluation performs. */
  function TestsRun(g: Graph, t: Tree, st: State, p: Packet): (n: nat)
    requires Within(g, Leaves(t))
    ensures n <= |Leaves(t)|
  {
    match t
    case Leaf(b) => 1
    case And(l, r) =>
      WithinParts(g, l, r);
      TestsRun(g, l, st, p) + (var v := Eval(g, l, st, p); if v.Says? && v.holds then TestsRun(g, r, v.st, p) else 0)
    case Or(l, r) =>
      WithinParts(g, l, r);
      TestsRun(g, l, st, p) + (var v := Eval(g, l, st, p); if v.Says? && !v.holds then TestsRun(g, r, v.st, p) else 0)
    case Not(u) => TestsRun(g, u, st, p)
  }

  lemma {:induction false} LinkedParts(g: Graph, t: Tree, yes: Id, no: Id)
    requires Distinct(t) && Linked(g, t, yes, no)
    ensures t.And? ==> Linked(g, t.l, First(t.r), no) && Linked(g, t.r, yes, no)
    ensures t.Or? ==> Linked(g, t.l, yes, First(t.r)) && Linked(g, t.r, yes, no)
    ensures t.Not? ==> Linked(g, t.t, no, yes)
  {
    forall b | b in Leaves(t) ensures LinkedAt(g, t, b, yes, no) { }
    if t.And? || t.Or? {
      DistinctParts(t.l, t.r);
      WithinParts(g, t.l, t.r);
      forall b | b in Leaves(t.l)
        ensures LinkedAt(g, t.l, b, if t.And? then First(t.r) else yes, if t.And? then no else First(t.r))
      {
        assert b in Leaves(t) && LinkedAt(g, t, b, yes, no);
      }
      forall b | b in Leaves(t.r) ensures LinkedAt(g, t.r, b, yes, no) {
        assert b in Leaves(t) && LinkedAt(g, t, b, yes, no);
      }
    } else if t.Not? {
      forall b | b in Leaves(t.t) ensures LinkedAt(g, t.t, b, no, yes) {
        assert LinkedAt(g, t, b, yes, no);
      }
    }
  }

  /** A graph linked as Link says walks the tree exactly as short-circuit evaluation does. */
  lemma {:induction false} LinkedRun(g: Graph, t: Tree, yes: Id, no: Id, st: State, p: Packet, fuel: nat)
    requires Closed(g) && Distinct(t) && Linked(g, t, yes, no) && yes < |g| && no < |g|
    ensures Run(g, First(t), st, p, TestsRun(g, t, st, p) + fuel)
         == var v := Eval(g, t, st, p);
            if v.Stop? then v.o else Run(g, if v.holds then yes else no, v.st, p, fuel)
    decreases t
  {
    hide Land;
    LinkedParts(g, t, yes, no);
    match t
    case Leaf(b) =>
      assert Leaves(t)[0] == b && LinkedAt(g, t, b, yes, no);
    case And(l, r) =>
      DistinctParts(l, r);
      WithinParts(g, l, r);
      var v := Eval(g, l, st, p);
      var rest := if v.Says? && v.holds then TestsRun(g, r, v.st, p) else 0;
      LinkedRun(g, l, First(r), no, st, p, rest + fuel);
      if v.Says? && v.holds { LinkedRun(g, r, yes, no, v.st, p, fuel); }
    case Or(l, r) =>
      DistinctParts(l, r);
      WithinParts(g, l, r);
      var v := Eval(g, l, st, p);
      var rest := if v.Says? && !v.holds then TestsRun(g, r, v.st, p) else 0;
      LinkedRun(g, l, yes, First(r), st, p, rest + fuel);
      if v.Says? && !v.holds { LinkedRun(g, r, yes, no, v.st, p, fuel); }
    case Not(u) => LinkedRun(g, u, no, yes, st, p, fuel);
  }
}
