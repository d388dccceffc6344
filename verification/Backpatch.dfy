/** The one-pass generator: blocks with unresolved exits threaded through their own links,
    joined by backpatching. */
module Backpatch {
  import opened Words
  import opened Bpf
  import opened Blocks
  import opened Layout
  import opened Trees
  import Liveness

  function SetSucc(n: Node, side: bool, r: Ref): Node {
    if side then n.(jt := r) else n.(jf := r)
  }

  /** The blocks of xs are chained from p, each through the link its sense leaves unresolved. */
  predicate Chain(node: Graph, sense: seq<bool>, p: Ref, xs: seq<Id>)
    requires |node| == |sense|
  {
    && NoDup(xs) && Within(node, xs)
    && p == (if |xs| == 0 then NIL else xs[0])
    && forall i {:trigger NextIn(xs, i)} :: 0 <= i < |xs| ==> node[xs[i]].Succ(!sense[xs[i]]) == NextIn(xs, i)
  }

  // The side through which block b leaves t with outcome w.
  function Side(t: Tree, b: Id, w: bool): bool { Pol(t, b) == w }

  /** The exits of t with outcome w are linked in chain order, ending in NIL. */
  predicate Threaded(node: Graph, t: Tree, w: bool) {
    && Within(node, Exits(t, w))
    && forall i {:trigger ThreadAt(node, t, w, i)} :: 0 <= i < |Exits(t, w)| ==> ThreadAt(node, t, w, i)
  }

  predicate ThreadAt(node: Graph, t: Tree, w: bool, i: nat)
    requires Within(node, Exits(t, w)) && i < |Exits(t, w)|
  {
    var xs := Exits(t, w);
    node[xs[i]].Succ(Side(t, xs[i], w)) == NextIn(xs, i)
  }

  function NextIn(xs: seq<Id>, i: nat): Ref { if i + 1 < |xs| then xs[i+1] else NIL }

  predicate Resolved(node: Graph, t: Tree, b: Id)
    requires b < |node|
  {
    && node[b].s.Jmp?
    && (Open(t, b, true).Goto? ==> node[b].jt == Open(t, b, true).b)
    && (Open(t, b, false).Goto? ==> node[b].jf == Open(t, b, false).b)
  }

  // The sense of the last block names its true exit; of any other block, its open exit if it has one.
  predicate SenseAt(sense: seq<bool>, t: Tree, b: Id)
    requires b < |sense|
  {
    if b == Last(t) then !sense[b] == Side(t, b, true)
    else forall w :: b in Exits(t, w) ==> !sense[b] == Side(t, b, w)
  }

  /** The table holds tree t with both outcomes unresolved. */
  predicate Holds(node: Graph, sense: seq<bool>, head: seq<Id>, t: Tree) {
    && |node| == |sense| == |head|
    && Distinct(t) && Within(node, Leaves(t))
    && head[Last(t)] == First(t)
    && (forall b {:trigger Resolved(node, t, b)} :: b in Leaves(t) ==> Resolved(node, t, b))
    && (forall b {:trigger SenseAt(sense, t, b)} :: b in Leaves(t) ==> SenseAt(sense, t, b))
    && Threaded(node, t, true) && Threaded(node, t, false)
  }

  /** The chain of an outcome, once the sense of the last block names that outcome. */
  lemma {:induction false} HoldsChain(node: Graph, sense: seq<bool>, head: seq<Id>, t: Tree, w: bool)
    requires Holds(node, sense, head, t)
    ensures Chain(node, sense[Last(t) := !Side(t, Last(t), w)], Last(t), Exits(t, w))
  {
    ExitsShape(t, w);
    var xs := Exits(t, w);
    var sense' := sense[Last(t) := !Side(t, Last(t), w)];
    assert Threaded(node, t, w);
    forall i | 0 <= i < |xs| ensures node[xs[i]].Succ(!sense'[xs[i]]) == NextIn(xs, i) {
      assert xs[i] in Leaves(t) && SenseAt(sense, t, xs[i]) && ThreadAt(node, t, w, i);
    }
  }

  function Join(w: bool, l: Tree, r: Tree): Tree { if w then Tree.And(l, r) else Tree.Or(l, r) }

  function Tail(t: Tree, w: bool): Id
    requires Distinct(t)
  {
    ExitsShape(t, w);
    Exits(t, w)[|Exits(t, w)| - 1]
  }

  // What joining l and r on outcome w does to the nodes of l and r.
  predicate LeftJoined(n: Graph, n': Graph, w: bool, l: Tree, r: Tree, b: Id)
    requires b < |n| == |n'|
  {
    n'[b] == if b in Exits(l, w) then SetSucc(n[b], Side(l, b, w), First(r)) else n[b]
  }

  predicate RightJoined(n: Graph, n': Graph, w: bool, l: Tree, r: Tree, b: Id)
    requires b < |n| == |n'| && Distinct(r)
  {
    n'[b] == if b == Tail(r, !w) then SetSucc(n[b], Side(r, b, !w), Last(l)) else n[b]
  }

  predicate Joined(n: Graph, n': Graph, w: bool, l: Tree, r: Tree)
    requires Distinct(r)
  {
    && |n| == |n'| && Within(n, Leaves(l)) && Within(n, Leaves(r))
    && (forall b {:trigger LeftJoined(n, n', w, l, r, b)} :: b in Leaves(l) ==> LeftJoined(n, n', w, l, r, b))
    && (forall b {:trigger RightJoined(n, n', w, l, r, b)} :: b in Leaves(r) ==> RightJoined(n, n', w, l, r, b))
  }

  lemma {:induction false} JoinResolved(n: Graph, n': Graph, w: bool, l: Tree, r: Tree, b: Id)
    requires NoDup(Leaves(l) + Leaves(r)) && Distinct(r) && Joined(n, n', w, l, r) && b in Leaves(l) + Leaves(r)
    requires if b in Leaves(l) then Resolved(n, l, b) else Resolved(n, r, b)
    ensures Resolved(n', Join(w, l, r), b)
  {
    DistinctParts(l, r);
    if b in Leaves(l) {
      assert LeftJoined(n, n', w, l, r, b);
      ExitsExact(l, b, w);
      forall side ensures Open(Join(w, l, r), b, side)
        == if w then Redirect(Open(l, b, side), Goto(First(r)), Out(false)) else Redirect(Open(l, b, side), Out(true), Goto(First(r)))
      {
        LinkRedirect(l, b, side, if w then Goto(First(r)) else Out(true), if w then Out(false) else Goto(First(r)));
      }
      ExitsExact(l, b, !w);
    } else {
      assert RightJoined(n, n', w, l, r, b);
      ExitsShape(r, !w);
      ExitsExact(r, b, !w);
    }
  }

  lemma {:induction false} JoinThreadedSame(n: Graph, n': Graph, w: bool, l: Tree, r: Tree)
    requires NoDup(Leaves(l) + Leaves(r)) && Distinct(l) && Distinct(r) && Joined(n, n', w, l, r) && Threaded(n, r, w)
    ensures Threaded(n', Join(w, l, r), w)
  {
    DistinctParts(l, r);
    ExitsShape(r, w); ExitsShape(r, !w);
    var xs := Exits(r, w);
    forall i | 0 <= i < |xs| ensures ThreadAt(n', Join(w, l, r), w, i) {
      assert ThreadAt(n, r, w, i);
      assert xs[i] in Leaves(r) && RightJoined(n, n', w, l, r, xs[i]);
    }
  }

  lemma {:induction false} JoinThreadedOther(n: Graph, n': Graph, w: bool, l: Tree, r: Tree)
    requires NoDup(Leaves(l) + Leaves(r)) && Distinct(l) && Distinct(r) && Joined(n, n', w, l, r)
    requires Threaded(n, l, !w) && Threaded(n, r, !w)
    ensures Threaded(n', Join(w, l, r), !w)
  {
    DistinctParts(l, r);
    ExitsShape(l, w); ExitsShape(l, !w); ExitsShape(r, !w);
    var x, y := Exits(r, !w), Exits(l, !w);
    var t, v := Join(w, l, r), !w;
    forall i | 0 <= i < |Exits(t, v)| ensures ThreadAt(n', t, v, i) {
      if i < |x| {
        assert ThreadAt(n, r, !w, i);
        assert x[i] in Leaves(r) && RightJoined(n, n', w, l, r, x[i]);
      } else {
        var b := y[i - |x|];
        assert ThreadAt(n, l, !w, i - |x|);
        assert b in Leaves(l) && LeftJoined(n, n', w, l, r, b);
      }
    }
  }

  lemma {:induction false} JoinSense(sense: seq<bool>, sense': seq<bool>, w: bool, l: Tree, r: Tree, b: Id)
    requires NoDup(Leaves(l) + Leaves(r)) && Distinct(l) && Distinct(r) && b in Leaves(l) + Leaves(r)
    requires b < |sense| && Last(l) < |sense| && (if b in Leaves(l) then SenseAt(sense, l, b) else SenseAt(sense, r, b))
    requires sense' == sense[Last(l) := !Side(l, Last(l), !w)]
    ensures SenseAt(sense', Join(w, l, r), b)
  {
    DistinctParts(l, r);
    ExitsShape(l, w); ExitsShape(l, !w); ExitsShape(r, w); ExitsShape(r, !w);
  }

  /** Joining two trees on outcome w: the exits of l with outcome w now go to r, the others are
      chained behind those of r. */
  lemma {:induction false} JoinHolds(n: Graph, n': Graph, sense: seq<bool>, sense': seq<bool>, head: seq<Id>, head': seq<Id>,
                                     w: bool, l: Tree, r: Tree)
    requires Holds(n, sense, head, l) && Holds(n, sense, head, r) && NoDup(Leaves(l) + Leaves(r))
    requires Joined(n, n', w, l, r)
    requires sense' == sense[Last(l) := !Side(l, Last(l), !w)]
    requires head' == head[Last(r) := head[Last(l)]]
    ensures Holds(n', sense', head', Join(w, l, r))
  {
    hide Link, Pol, Exits, LeftJoined, RightJoined, ThreadAt;
    var t := Join(w, l, r);
    DistinctParts(l, r);
    JoinThreadedSame(n, n', w, l, r);
    JoinThreadedOther(n, n', w, l, r);
    forall b | b in Leaves(t) ensures Resolved(n', t, b) {
      if b in Leaves(l) { assert Resolved(n, l, b); } else { assert Resolved(n, r, b); }
      JoinResolved(n, n', w, l, r, b);
    }
    forall b | b in Leaves(t) ensures SenseAt(sense', t, b) {
      if b in Leaves(l) { assert SenseAt(sense, l, b); } else { assert SenseAt(sense, r, b); }
      JoinSense(sense, sense', w, l, r, b);
    }
  }

  lemma {:induction false} NotHolds(node: Graph, sense: seq<bool>, sense': seq<bool>, head: seq<Id>, t: Tree)
    requires Holds(node, sense, head, t) && sense' == sense[Last(t) := !sense[Last(t)]]
    ensures Holds(node, sense', head, Tree.Not(t))
  {
    var u := Tree.Not(t);
    forall b | b in Leaves(u) ensures Resolved(node, u, b) && SenseAt(sense', u, b) {
      assert Resolved(node, t, b) && SenseAt(sense, t, b);
      LinkRedirect(t, b, true, Out(false), Out(true));
      LinkRedirect(t, b, false, Out(false), Out(true));
    }
    forall i | 0 <= i < |Exits(u, true)| ensures ThreadAt(node, u, true, i) {
      assert ThreadAt(node, t, false, i);
    }
    forall i | 0 <= i < |Exits(u, false)| ensures ThreadAt(node, u, false, i) {
      assert ThreadAt(node, t, true, i);
    }
  }

  predicate TailSense(node: Graph, sense: seq<bool>, t: Tree, w: bool)
    requires |node| == |sense| && Distinct(t)
  {
    Tail(t, w) < |node| && (Tail(t, w) != Last(t) ==> !sense[Tail(t, w)] == Side(t, Tail(t, w), w))
  }

  /** Both chains of t, as backpatching and merging walk them. */
  lemma {:induction false} HoldsChains(node: Graph, sense: seq<bool>, head: seq<Id>, t: Tree)
    requires Holds(node, sense, head, t)
    ensures |node| == |sense| == |head| && Within(node, Leaves(t)) && Last(t) < |node|
    ensures Chain(node, sense, Last(t), Exits(t, true))
    ensures Chain(node, sense[Last(t) := !sense[Last(t)]], Last(t), Exits(t, false))
    ensures head[Last(t)] == First(t)
    ensures !sense[Last(t)] == Side(t, Last(t), true) == !Side(t, Last(t), false)
    ensures Distinct(t) && TailSense(node, sense, t, true) && TailSense(node, sense, t, false)
    ensures forall w, b :: b in Exits(t, w) ==> b in Leaves(t)
    ensures forall w, b :: b in Exits(t, w) && b != Last(t) ==> !sense[b] == Side(t, b, w)
  {
    assert Last(t) in Leaves(t) && SenseAt(sense, t, Last(t));
    assert sense == sense[Last(t) := sense[Last(t)]];
    HoldsChain(node, sense, head, t, true);
    HoldsChain(node, sense, head, t, false);
    forall w, b | b in Exits(t, w) ensures b in Leaves(t) && (b != Last(t) ==> !sense[b] == Side(t, b, w)) {
      ExitsShape(t, w);
      assert SenseAt(sense, t, b);
    }
    assert Tail(t, true) in Exits(t, true) && Tail(t, false) in Exits(t, false);
  }

  lemma {:induction false} Separate(l: Tree, r: Tree, w: bool)
    requires NoDup(Leaves(l) + Leaves(r))
    ensures Distinct(l) && Distinct(r) && Last(l) != Last(r)
    ensures forall b :: b in Exits(r, !w) ==> b !in Exits(l, w) && b != Last(l)
    ensures |Exits(r, !w)| > 0 && Tail(r, !w) == Exits(r, !w)[|Exits(r, !w)| - 1]
    ensures forall b :: b in Exits(l, w) ==> b in Leaves(l)
    ensures forall b :: b in Exits(r, !w) ==> b in Leaves(r)
    ensures Last(l) in Leaves(l) && Last(r) in Leaves(r)
  {
    DistinctParts(l, r);
    ExitsShape(l, w);
    ExitsShape(r, !w);
    assert Last(l) in Leaves(l) && Last(r) in Leaves(r);
  }

  lemma {:induction false} ChainAgree(n: Graph, n': Graph, sense: seq<bool>, sense': seq<bool>, p: Id, xs: seq<Id>)
    requires |n| == |n'| == |sense| == |sense'| && Chain(n, sense, p, xs)
    requires forall b :: b in xs && b < |n| ==> n'[b] == n[b] && sense'[b] == sense[b]
    ensures Chain(n', sense', p, xs)
  {
    forall i | 0 <= i < |xs| ensures n'[xs[i]].Succ(!sense'[xs[i]]) == NextIn(xs, i) {
      assert xs[i] in xs && NextIn(xs, i) == NextIn(xs, i);
    }
  }

  lemma {:induction false} JoinIs(l: Tree, r: Tree)
    ensures Join(true, l, r) == Tree.And(l, r) && Join(false, l, r) == Tree.Or(l, r)
  {
  }

  lemma {:induction false} FlipTwice(s: seq<bool>, i: nat, j: nat)
    requires i < |s| && j < |s| && i != j
    ensures var s1 := s[i := !s[i]]; var s2 := s1[j := !s1[j]]; s2[j := !s2[j]] == s[i := !s[i]]
  {
  }

  /** Every old block keeps its code, and those outside xs keep their links. */
  predicate Touched(n: Graph, n': Graph, xs: seq<Id>) {
    && |n| <= |n'|
    && forall b {:trigger n'[b]} :: 0 <= b < |n| ==>
      n'[b].stmts == n[b].stmts && n'[b].s == n[b].s && (b !in xs ==> n'[b] == n[b])
  }

  predicate Spared<T(==)>(s: seq<T>, s': seq<T>, xs: seq<Id>) {
    |s| <= |s'| && forall b {:trigger s'[b]} :: 0 <= b < |s| && b !in xs ==> s'[b] == s[b]
  }

  /** Patching one chain of l and then the end of the other chain of r joins l and r. */
  lemma {:induction false} JoinedBy(n: Graph, n1: Graph, n2: Graph, sense: seq<bool>, sense1: seq<bool>, w: bool, l: Tree, r: Tree)
    requires |n| == |n1| == |sense| == |sense1| && NoDup(Leaves(l) + Leaves(r)) && Distinct(l) && Distinct(r)
    requires Within(n, Leaves(l)) && Within(n, Leaves(r))
    requires forall b :: 0 <= b < |n| ==>
      n1[b] == if b in Exits(l, w) then SetSucc(n[b], Side(l, b, w), First(r)) else n[b]
    requires Tail(r, !w) < |n| && !sense1[Tail(r, !w)] == Side(r, Tail(r, !w), !w)
    requires n2 == n1[Tail(r, !w) := SetSucc(n1[Tail(r, !w)], !sense1[Tail(r, !w)], Last(l))]
    ensures Joined(n, n2, w, l, r) && Touched(n, n2, Leaves(l) + Leaves(r))
  {
    hide Exits, Pol, Leaves, NoDup, Side, Tail;
    Separate(l, r, w);
    DistinctParts(l, r);
    forall b | b in Leaves(l) ensures LeftJoined(n, n2, w, l, r, b) {
      assert b != Tail(r, !w);
    }
    forall b | b in Leaves(r) ensures RightJoined(n, n2, w, l, r, b) {
      assert b !in Exits(l, w);
    }
  }

  /** t is the tree ending in b, and its leaves are exactly the blocks from first on. */
  ghost predicate Fresh(node: Graph, sense: seq<bool>, head: seq<Id>, b: Id, t: Tree, first: nat) {
    && Holds(node, sense, head, t) && b == Last(t)
    && forall x {:trigger x in Leaves(t)} :: x in Leaves(t) <==> first <= x < |node|
  }

  // Blocks below first are the same, and every block keeps its code.
  predicate Same(n: Graph, n': Graph, sense: seq<bool>, sense': seq<bool>, head: seq<Id>, head': seq<Id>, first: nat) {
    && first <= |n| == |n'| == |sense| == |sense'| == |head| == |head'|
    && (forall b {:trigger n'[b]} :: 0 <= b < |n| ==> n'[b].stmts == n[b].stmts && n'[b].s == n[b].s)
    && n'[..first] == n[..first] && sense'[..first] == sense[..first] && head'[..first] == head[..first]
  }

  /** l is a tree whose leaves start at first, and r the tree of all blocks after l. */
  ghost predicate Newest(node: Graph, sense: seq<bool>, head: seq<Id>, b0: Id, b1: Id, l: Tree, r: Tree, first: nat, mid: nat) {
    && Holds(node, sense, head, l) && Holds(node, sense, head, r) && b0 == Last(l) && b1 == Last(r)
    && first <= mid <= |node|
    && (forall x {:trigger x in Leaves(l)} :: x in Leaves(l) <==> first <= x < mid)
    && (forall x {:trigger x in Leaves(r)} :: x in Leaves(r) <==> mid <= x < |node|)
  }

  lemma {:induction false} NewestApart(node: Graph, sense: seq<bool>, head: seq<Id>, b0: Id, b1: Id, l: Tree, r: Tree, first: nat, mid: nat)
    requires Newest(node, sense, head, b0, b1, l, r, first, mid)
    ensures Holds(node, sense, head, l) && Holds(node, sense, head, r) && b0 == Last(l) && b1 == Last(r)
    ensures NoDup(Leaves(l) + Leaves(r))
  {
    forall b | b in Leaves(r) ensures b !in Leaves(l) { }
    NoDupJoin(Leaves(l), Leaves(r));
  }

  lemma {:induction false} JoinedFresh(n: Graph, n': Graph, sense: seq<bool>, sense': seq<bool>, head: seq<Id>, head': seq<Id>,
                                       b0: Id, b1: Id, l: Tree, r: Tree, first: nat, mid: nat, w: bool)
    requires Newest(n, sense, head, b0, b1, l, r, first, mid) && Holds(n', sense', head', Join(w, l, r)) && |n'| == |n|
    requires Touched(n, n', Leaves(l) + Leaves(r)) && Spared(sense, sense', Leaves(l)) && Spared(head, head', Leaves(r))
    ensures Fresh(n', sense', head', b1, Join(w, l, r), first)
    ensures Same(n, n', sense, sense', head, head', first)
  {
    var t := Join(w, l, r);
    assert Leaves(t) == Leaves(l) + Leaves(r);
    forall x ensures x in Leaves(t) <==> first <= x < |n'| {
      assert x in Leaves(t) <==> x in Leaves(l) || x in Leaves(r);
    }
  }

  /** A tree is undisturbed by what happens to blocks outside it. */
  lemma {:induction false} HoldsKept(n: Graph, sense: seq<bool>, head: seq<Id>, n': Graph, sense': seq<bool>, head': seq<Id>, t: Tree)
    requires Holds(n, sense, head, t) && |n| <= |n'| == |sense'| == |head'|
    requires forall b :: b in Leaves(t) && b < |n| ==> n'[b] == n[b] && sense'[b] == sense[b] && head'[b] == head[b]
    ensures Holds(n', sense', head', t)
  {
    assert Last(t) in Leaves(t);
    forall b | b in Leaves(t) ensures Resolved(n', t, b) && SenseAt(sense', t, b) {
      assert Resolved(n, t, b) && SenseAt(sense, t, b);
    }
    ThreadedKept(n, n', t, true);
    ThreadedKept(n, n', t, false);
  }

  lemma {:induction false} ThreadedKept(n: Graph, n': Graph, t: Tree, w: bool)
    requires Distinct(t) && Threaded(n, t, w) && |n| <= |n'|
    requires forall b :: b in Leaves(t) && b < |n| ==> n'[b] == n[b]
    ensures Threaded(n', t, w)
  {
    ExitsShape(t, w);
    forall i | 0 <= i < |Exits(t, w)| ensures ThreadAt(n', t, w, i) {
      assert ThreadAt(n, t, w, i);
      assert Exits(t, w)[i] in Exits(t, w);
    }
  }

  /** Once both chains are patched the tree is linked to the two targets. */
  lemma {:induction false} PatchedLinked(n: Graph, n': Graph, sense: seq<bool>, head: seq<Id>, t: Tree, yes: Id, no: Id)
    requires Holds(n, sense, head, t) && |n| <= |n'|
    requires forall b :: b in Leaves(t) && b < |n| ==> PatchedBoth(n[b], n'[b], t, b, yes, no)
    ensures Linked(n', t, yes, no)
  {
    forall b | b in Leaves(t) ensures b < |n'| && LinkedAt(n', t, b, yes, no) {
      assert Resolved(n, t, b);
      ExitsExact(t, b, true);
      ExitsExact(t, b, false);
      LinkRedirect(t, b, true, Goto(yes), Goto(no));
      LinkRedirect(t, b, false, Goto(yes), Goto(no));
    }
  }

  lemma {:induction false} ChainGrows(n: Graph, n': Graph, sense: seq<bool>, sense': seq<bool>, p: Id, xs: seq<Id>)
    requires |n| == |sense| && |n'| == |sense'| && n <= n' && sense <= sense' && Chain(n, sense, p, xs)
    ensures Chain(n', sense', p, xs) && forall b :: b in xs ==> b < |n|
  {
    forall i | 0 <= i < |xs| ensures n'[xs[i]].Succ(!sense'[xs[i]]) == NextIn(xs, i) {
      assert NextIn(xs, i) == NextIn(xs, i);
    }
  }

  predicate PatchedTrue(n: Graph, n': Graph, t: Tree, yes: Id) {
    |n| <= |n'| && forall b {:trigger n'[b]} :: 0 <= b < |n| ==>
      n'[b] == if b in Exits(t, true) then SetSucc(n[b], Side(t, b, true), yes) else n[b]
  }

  /** Patching the true chain leaves the false chain as it was. */
  lemma {:induction false} FalseChain(n: Graph, n': Graph, sense: seq<bool>, sense': seq<bool>, head: seq<Id>, t: Tree, yes: Id)
    requires Holds(n, sense, head, t) && |n'| == |sense'| && PatchedTrue(n, n', t, yes)
    requires sense[Last(t) := !sense[Last(t)]] <= sense'
    ensures Chain(n', sense', Last(t), Exits(t, false))
  {
    HoldsChains(n, sense, head, t);
    ExitsShape(t, false);
    ExitsShape(t, true);
    var xs := Exits(t, false);
    forall i | 0 <= i < |xs| ensures n'[xs[i]].Succ(!sense'[xs[i]]) == NextIn(xs, i) {
      assert ThreadAt(n, t, false, i);
      assert xs[i] in Leaves(t);
      if xs[i] in Exits(t, true) { ExitsMeet(t, xs[i]); }
    }
  }

  /** Patching both chains links the tree. */
  lemma {:induction false} BothPatched(n: Graph, n1: Graph, n2: Graph, sense: seq<bool>, sense1: seq<bool>, head: seq<Id>,
                                       t: Tree, yes: Id, no: Id)
    requires Holds(n, sense, head, t) && |n1| == |sense1| == |n2| && PatchedTrue(n, n1, t, yes)
    requires sense[Last(t) := !sense[Last(t)]] <= sense1
    requires forall b :: 0 <= b < |n2| ==> n2[b] == if b in Exits(t, false) then SetSucc(n1[b], !sense1[b], no) else n1[b]
    ensures Linked(n2, t, yes, no) && Touched(n, n2, Leaves(t))
    ensures forall b :: |n| <= b < |n2| ==> n2[b] == n1[b]
  {
    HoldsChains(n, sense, head, t);
    ExitsShape(t, false);
    ExitsShape(t, true);
    forall b | b in Leaves(t) && b < |n| ensures PatchedBoth(n[b], n2[b], t, b, yes, no) { }
    PatchedLinked(n, n2, sense, head, t, yes, no);
  }

  predicate PatchedBoth(m: Node, m': Node, t: Tree, b: Id, yes: Id, no: Id) {
    var m1 := if b in Exits(t, true) then SetSucc(m, Side(t, b, true), yes) else m;
    m' == if b in Exits(t, false) then SetSucc(m1, Side(t, b, false), no) else m1
  }

  // A snapshot of the block table, and whether the filter divides.
  datatype Table = Table(node: Graph, sense: seq<bool>, head: seq<Id>, divides: bool)

  /** From o to n the table has grown by exactly the blocks of tree t, which ends in b. */
  ghost predicate Grows(o: Table, n: Table, b: Id, t: Tree) {
    && |o.node| == |o.sense| == |o.head|
    && o.node <= n.node && o.sense <= n.sense && o.head <= n.head
    && Fresh(n.node, n.sense, n.head, b, t, |o.node|)
    && OwnFrom(n.node, |o.node|) && o.divides == n.divides && TameFrom(n.node, |o.node|, n.divides)
  }

  predicate TameFrom(node: Graph, first: nat, divides: bool) {
    forall x {:trigger node[x]} :: first <= x < |node| ==> Tame(node[x].stmts, divides)
  }

  /** The blocks from first on set all they read. */
  predicate OwnFrom(node: Graph, first: nat) {
    forall x {:trigger node[x]} :: first <= x < |node| ==> Liveness.SelfContained(node[x])
  }

  lemma {:induction false} OwnJoin(o: Graph, m: Graph, n: Graph, n': Graph, divides: bool)
    requires o <= m <= n && OwnFrom(m, |o|) && OwnFrom(n, |m|) && |n'| == |n|
    requires TameFrom(m, |o|, divides) && TameFrom(n, |m|, divides)
    requires forall b {:trigger n'[b]} :: 0 <= b < |n| ==> n'[b].stmts == n[b].stmts && n'[b].s == n[b].s
    ensures OwnFrom(n', |o|) && TameFrom(n', |o|, divides)
  {
    hide Liveness.LiveIn, Tame;
    forall x | |o| <= x < |n'| ensures Liveness.SelfContained(n'[x]) && Tame(n'[x].stmts, divides) {
      assert x < |m| ==> n[x] == m[x] && Liveness.SelfContained(m[x]);
      assert x >= |m| ==> Liveness.SelfContained(n[x]);
    }
  }

  lemma {:induction false} GrowsPair(o: Table, m: Table, n: Table, b0: Id, b1: Id, l: Tree, r: Tree)
    requires Grows(o, m, b0, l) && Grows(m, n, b1, r)
    ensures Newest(n.node, n.sense, n.head, b0, b1, l, r, |o.node|, |m.node|)
  {
    HoldsKept(m.node, m.sense, m.head, n.node, n.sense, n.head, l);
  }

  lemma {:induction false} GrowsJoin(o: Table, m: Table, n: Table, n': Table, b0: Id, b1: Id, l: Tree, r: Tree, t: Tree)
    requires Grows(o, m, b0, l) && Grows(m, n, b1, r) && Fresh(n'.node, n'.sense, n'.head, b1, t, |o.node|)
    requires Same(n.node, n'.node, n.sense, n'.sense, n.head, n'.head, |o.node|) && n'.divides == n.divides
    ensures Grows(o, n', b1, t)
  {
    assert o.node <= n.node && o.sense <= n.sense && o.head <= n.head;
    OwnJoin(o.node, m.node, n.node, n'.node, n.divides);
  }

  class Generator {
    var node: Graph
    var sense: seq<bool>
    var head: seq<Id>
    ghost const divides: bool

    ghost predicate Valid()
      reads this
    {
      |node| == |sense| == |head|
    }

    ghost function Now(): Table
      reads this
    {
      Table(node, sense, head, divides)
    }

    constructor (ghost d: bool)
      ensures Valid() && |node| == 0 && divides == d
    {
      node, sense, head := [], [], [];
      divides := d;
    }

    /** Patch the chained blocks to target. */
    method Backpatch(list: Ref, target: Ref, ghost xs: seq<Id>)
      requires Valid() && Chain(node, sense, list, xs)
      modifies `node
      ensures Valid()
      ensures forall b :: 0 <= b < |node| ==>
        node[b] == if b in xs then SetSucc(old(node)[b], !sense[b], target) else old(node)[b]
    {
      var p := list;
      ghost var i := 0;
      while p != NIL
        invariant Valid() && |node| == |old(node)| && i <= |xs| && p == (if i < |xs| then xs[i] else NIL)
        invariant forall b :: 0 <= b < |node| ==>
          node[b] == if b in xs[..i] then SetSucc(old(node)[b], !sense[b], target) else old(node)[b]
        decreases |xs| - i
      {
        var next := node[p].Succ(!sense[p]);
        assert next == NextIn(xs, i);
        node := node[p := SetSucc(node[p], !sense[p], target)];
        p := next;
        assert xs[..i+1] == xs[..i] + [xs[i]];
        i := i + 1;
      }
      assert xs[..i] == xs;
    }

    /** Append the list b1 to the end of the list b0. */
    method Merge(b0: Id, b1: Ref, ghost xs: seq<Id>)
      requires Valid() && |xs| > 0 && Chain(node, sense, b0, xs)
      modifies `node
      ensures Valid()
      ensures node == old(var b := xs[|xs|-1]; node[b := SetSucc(node[b], !sense[b], b1)])
    {
      var p := b0;
      ghost var i := 0;
      assert node[p].Succ(!sense[p]) == NextIn(xs, 0);
      while node[p].Succ(!sense[p]) != NIL
        invariant node == old(node) && i < |xs| && p == xs[i] && node[p].Succ(!sense[p]) == NextIn(xs, i)
        decreases |xs| - i
      {
        assert NextIn(xs, i + 1) == NextIn(xs, i + 1);
        p := node[p].Succ(!sense[p]);
        i := i + 1;
      }
      node := node[p := SetSucc(node[p], !sense[p], b1)];
    }

    /** b1 becomes the conjunction of b0 and b1. */
    method GenAnd(b0: Id, b1: Id, ghost l: Tree, ghost r: Tree)
      requires Holds(node, sense, head, l) && Holds(node, sense, head, r) && NoDup(Leaves(l) + Leaves(r))
      requires b0 == Last(l) && b1 == Last(r)
      modifies `node, `sense, `head
      ensures Holds(node, sense, head, Tree.And(l, r)) && |node| == old(|node|)
      ensures Touched(old(node), node, Leaves(l) + Leaves(r)) && Spared(old(sense), sense, Leaves(l)) && Spared(old(head), head, Leaves(r))
    {
      hide Holds, Exits, Leaves, Pol, Chain, First, Last, NoDup, Touched, Joined, Tail, Side, Distinct, Join, NextIn;
      ghost var n, s := node, sense;
      HoldsChains(node, sense, head, l);
      HoldsChains(node, sense, head, r);
      Separate(l, r, true);
      Backpatch(b0, head[b1], Exits(l, true));
      ghost var n1 := node;
      sense := sense[b0 := !sense[b0]];
      sense := sense[b1 := !sense[b1]];
      ChainAgree(n, n1, s[b1 := !s[b1]], sense, b1, Exits(r, false));
      Merge(b1, b0, Exits(r, false));
      JoinedBy(n, n1, node, s, sense, true, l, r);
      sense := sense[b1 := !sense[b1]];
      head := head[b1 := head[b0]];
      FlipTwice(s, b0, b1);
      JoinHolds(n, node, s, sense, old(head), head, true, l, r);
      assert Join(true, l, r) == Tree.And(l, r) by { JoinIs(l, r); }
    }

    /** b1 becomes the disjunction of b0 and b1. */
    method GenOr(b0: Id, b1: Id, ghost l: Tree, ghost r: Tree)
      requires Holds(node, sense, head, l) && Holds(node, sense, head, r) && NoDup(Leaves(l) + Leaves(r))
      requires b0 == Last(l) && b1 == Last(r)
      modifies `node, `sense, `head
      ensures Holds(node, sense, head, Tree.Or(l, r)) && |node| == old(|node|)
      ensures Touched(old(node), node, Leaves(l) + Leaves(r)) && Spared(old(sense), sense, Leaves(l)) && Spared(old(head), head, Leaves(r))
    {
      hide Holds, Exits, Leaves, Pol, Chain, First, Last, NoDup, Touched, Joined, Tail, Side, Distinct, Join, NextIn;
      ghost var n, s := node, sense;
      HoldsChains(node, sense, head, l);
      HoldsChains(node, sense, head, r);
      Separate(l, r, false);
      sense := sense[b0 := !sense[b0]];
      Backpatch(b0, head[b1], Exits(l, false));
      ghost var n1 := node;
      sense := sense[b0 := !sense[b0]];
      assert sense == s;
      ChainAgree(n, n1, s, sense, b1, Exits(r, true));
      Merge(b1, b0, Exits(r, true));
      JoinedBy(n, n1, node, s, sense, false, l, r);
      head := head[b1 := head[b0]];
      assert sense == s[b0 := s[b0]];
      JoinHolds(n, node, s, sense, old(head), head, false, l, r);
      assert Join(false, l, r) == Tree.Or(l, r) by { JoinIs(l, r); }
    }

    /** b becomes its own negation. */
    method GenNot(b: Id, ghost t: Tree)
      requires Holds(node, sense, head, t) && b == Last(t)
      modifies `sense
      ensures Holds(node, sense, head, Tree.Not(t))
      ensures Spared(old(sense), sense, Leaves(t))
    {
      sense := sense[b := !sense[b]];
      NotHolds(node, old(sense), sense, head, t);
    }

    /** A new block at the end of the table. */
    method NewBlock(stmts: seq<Stmt>, s: Branch) returns (b: Id)
      requires Valid()
      modifies `node, `sense, `head
      ensures Valid() && b == old(|node|) && old(sense) <= sense && old(head) <= head
      ensures node == old(node) + [Node(stmts, s, NIL, NIL)]
      ensures s.Jmp? ==> Fresh(node, sense, head, b, Leaf(b), b)
    {
      b := |node|;
      node := node + [Node(stmts, s, NIL, NIL)];
      sense := sense + [false];
      head := head + [b];
      if s.Jmp? {
        assert ThreadAt(node, Leaf(b), true, 0) && ThreadAt(node, Leaf(b), false, 0);
        assert Resolved(node, Leaf(b), b) && SenseAt(sense, Leaf(b), b);
      }
    }

    method GenRetBlk(v: Word) returns (b: Id)
      requires Valid()
      modifies `node, `sense, `head
      ensures Valid() && b == old(|node|) && old(sense) <= sense && old(head) <= head
      ensures node == old(node) + [Node([], RetK(v), NIL, NIL)]
    {
      b := NewBlock([], RetK(v));
    }

    /** Resolve the true exits of p to a return of snaplen and its false exits to a return of 0. */
    method FinishParse(p: Id, snaplen: Word, ghost t: Tree) returns (root: Id)
      requires Holds(node, sense, head, t) && p == Last(t)
      modifies `node, `sense, `head
      ensures root == First(t) && |node| == old(|node|) + 2
      ensures Touched(old(node), node, Leaves(t)) && Linked(node, t, old(|node|), old(|node|) + 1)
      ensures node[old(|node|)] == Node([], RetK(snaplen), NIL, NIL) && node[old(|node|) + 1] == Node([], RetK(0), NIL, NIL)
    {
      hide Holds, Exits, Leaves, Pol, First, Last, NoDup, Side, Chain, Linked, Touched;
      ghost var n, s := node, sense;
      HoldsChains(node, sense, head, t);
      var yes := GenRetBlk(snaplen);
      ChainGrows(n, node, s, sense, p, Exits(t, true));
      Backpatch(p, yes, Exits(t, true));
      assert node[yes] == Node([], RetK(snaplen), NIL, NIL);
      sense := sense[p := !sense[p]];
      var no := GenRetBlk(0);
      ghost var n1 := node;
      assert n1[yes] == Node([], RetK(snaplen), NIL, NIL) && n1[no] == Node([], RetK(0), NIL, NIL);
      FalseChain(n, n1, s, sense, old(head), t, yes);
      Backpatch(p, no, Exits(t, false));
      BothPatched(n, n1, node, s, sense, old(head), t, yes, no);
      root := head[p];
    }

    /** Conjoin the two newest trees. */
    method Conjoin(b0: Id, b1: Id, ghost l: Tree, ghost r: Tree, ghost first: nat, ghost mid: nat)
      requires Newest(node, sense, head, b0, b1, l, r, first, mid)
      modifies `node, `sense, `head
      ensures Fresh(node, sense, head, b1, Tree.And(l, r), first)
      ensures Same(old(node), node, old(sense), sense, old(head), head, first)
    {
      hide Holds, Exits, Leaves, Pol, First, Last, NoDup, Touched, Spared, Same, Newest, Fresh;
      NewestApart(node, sense, head, b0, b1, l, r, first, mid);
      GenAnd(b0, b1, l, r);
      JoinedFresh(old(node), node, old(sense), sense, old(head), head, b0, b1, l, r, first, mid, true);
    }

    /** Disjoin the two newest trees. */
    method Disjoin(b0: Id, b1: Id, ghost l: Tree, ghost r: Tree, ghost first: nat, ghost mid: nat)
      requires Newest(node, sense, head, b0, b1, l, r, first, mid)
      modifies `node, `sense, `head
      ensures Fresh(node, sense, head, b1, Tree.Or(l, r), first)
      ensures Same(old(node), node, old(sense), sense, old(head), head, first)
    {
      hide Holds, Exits, Leaves, Pol, First, Last, NoDup, Touched, Spared, Same, Newest, Fresh;
      NewestApart(node, sense, head, b0, b1, l, r, first, mid);
      GenOr(b0, b1, l, r);
      JoinedFresh(old(node), node, old(sense), sense, old(head), head, b0, b1, l, r, first, mid, false);
    }
  }
}
