/** What a tree of tests says about a packet, whatever the machine state it starts from. */
module Meanings {
  import opened Bpf
  import opened Blocks
  import opened Layout
  import opened Trees

  // None: evaluation faults. Otherwise the outcome.
  type Answer = Option<bool>

  predicate Matches(v: Verdict, a: Answer) {
    match a
    case None => v == Stop(Fault)
    case Some(h) => v.Says? && v.holds == h
  }

  ghost predicate Means(g: Graph, t: Tree, p: Packet, a: Answer) {
    Within(g, Leaves(t)) && forall st: State :: Matches(Eval(g, t, st, p), a)
  }

  function Both(a: Answer, b: Answer): Answer {
    match a case None => None case Some(h) => if h then b else Some(false)
  }

  function Either(a: Answer, b: Answer): Answer {
    match a case None => None case Some(h) => if h then Some(true) else b
  }

  function Negate(a: Answer): Answer {
    match a case None => None case Some(h) => Some(!h)
  }

  lemma {:induction false} MeansAnd(g: Graph, l: Tree, r: Tree, p: Packet, a: Answer, b: Answer)
    requires Means(g, l, p, a) && Means(g, r, p, b)
    ensures Means(g, Tree.And(l, r), p, Both(a, b))
  {
    WithinJoin(g, l, r);
    forall st: State ensures Matches(Eval(g, Tree.And(l, r), st, p), Both(a, b)) {
      assert Matches(Eval(g, l, st, p), a);
      var v := Eval(g, l, st, p);
      if v.Says? { assert Matches(Eval(g, r, v.st, p), b); }
    }
  }

  lemma {:induction false} MeansOr(g: Graph, l: Tree, r: Tree, p: Packet, a: Answer, b: Answer)
    requires Means(g, l, p, a) && Means(g, r, p, b)
    ensures Means(g, Tree.Or(l, r), p, Either(a, b))
  {
    WithinJoin(g, l, r);
    forall st: State ensures Matches(Eval(g, Tree.Or(l, r), st, p), Either(a, b)) {
      assert Matches(Eval(g, l, st, p), a);
      var v := Eval(g, l, st, p);
      if v.Says? { assert Matches(Eval(g, r, v.st, p), b); }
    }
  }

  lemma {:induction false} MeansNot(g: Graph, t: Tree, p: Packet, a: Answer)
    requires Means(g, t, p, a)
    ensures Means(g, Tree.Not(t), p, Negate(a))
  {
    forall st: State ensures Matches(Eval(g, Tree.Not(t), st, p), Negate(a)) {
      assert Matches(Eval(g, t, st, p), a);
    }
  }

  lemma {:induction false} WithinJoin(g: Graph, l: Tree, r: Tree)
    requires Within(g, Leaves(l)) && Within(g, Leaves(r))
    ensures Within(g, Leaves(l) + Leaves(r))
  {
  }

  /** Evaluation looks at the code of the leaves only, not at their links. */
  lemma {:induction false} EvalKept(g: Graph, g': Graph, t: Tree, st: State, p: Packet)
    requires Within(g, Leaves(t)) && Within(g', Leaves(t))
    requires forall b :: b in Leaves(t) && b < |g| && b < |g'| ==> g'[b].stmts == g[b].stmts && g'[b].s == g[b].s
    ensures Eval(g', t, st, p) == Eval(g, t, st, p)
  {
    match t
    case Leaf(b) => assert Leaves(t)[0] == b && b in Leaves(t);
    case And(l, r) =>
      WithinParts(g, l, r); WithinParts(g', l, r);
      EvalKept(g, g', l, st, p);
      var v := Eval(g, l, st, p);
      if v.Says? { EvalKept(g, g', r, v.st, p); }
    case Or(l, r) =>
      WithinParts(g, l, r); WithinParts(g', l, r);
      EvalKept(g, g', l, st, p);
      var v := Eval(g, l, st, p);
      if v.Says? { EvalKept(g, g', r, v.st, p); }
    case Not(u) => EvalKept(g, g', u, st, p);
  }

  lemma {:induction false} MeansKept(g: Graph, g': Graph, t: Tree, p: Packet, a: Answer)
    requires Means(g, t, p, a) && |g| <= |g'|
    requires forall b :: b in Leaves(t) && b < |g| ==> g'[b].stmts == g[b].stmts && g'[b].s == g[b].s
    ensures Means(g', t, p, a)
  {
    forall st: State ensures Matches(Eval(g', t, st, p), a) {
      EvalKept(g, g', t, st, p);
    }
  }
}
