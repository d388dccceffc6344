/** pcap_compile without the optimizer: generate, resolve the exits, flatten. */
module Compiler {
  import opened Words
  import opened Bpf
  import opened Blocks
  import opened Layout
  import opened Program
  import opened Flatten
  import opened Trees
  import opened Meanings
  import opened Filters
  import opened Backpatch
  import opened Regs
  import opened Tests
  import Liveness

  /** Every link of a leaf goes to a later leaf or out of the tree. */
  lemma {:induction false} LinkForward(t: Tree, i: nat, side: bool, yes: Target, no: Target) returns (j: nat)
    requires Distinct(t) && i < |Leaves(t)|
    ensures i < j <= |Leaves(t)|
    ensures var x := Link(t, Leaves(t)[i], side, yes, no);
      if j < |Leaves(t)| then x == Goto(Leaves(t)[j]) else x == yes || x == no
  {
    match t
    case Leaf(_) => j := 1;
    case And(l, r) =>
      DistinctParts(l, r);
      if i < |Leaves(l)| {
        j := LinkForward(l, i, side, Goto(First(r)), no);
        if j == |Leaves(l)| && Link(l, Leaves(t)[i], side, Goto(First(r)), no) == no { j := |Leaves(t)|; }
      } else {
        assert Leaves(r)[i - |Leaves(l)|] in Leaves(r);
        j := LinkForward(r, i - |Leaves(l)|, side, yes, no);
        j := j + |Leaves(l)|;
      }
    case Or(l, r) =>
      DistinctParts(l, r);
      if i < |Leaves(l)| {
        j := LinkForward(l, i, side, yes, Goto(First(r)));
        if j == |Leaves(l)| && Link(l, Leaves(t)[i], side, yes, Goto(First(r))) == yes { j := |Leaves(t)|; }
      } else {
        assert Leaves(r)[i - |Leaves(l)|] in Leaves(r);
        j := LinkForward(r, i - |Leaves(l)|, side, yes, no);
        j := j + |Leaves(l)|;
      }
    case Not(u) => j := LinkForward(u, i, side, no, yes);
  }

  // A finished graph: the leaves of t, and the accepting and the rejecting return after them.
  ghost predicate Finished(g: Graph, t: Tree, snaplen: Word) {
    var n := |g| - 2;
    && n >= 0 && Distinct(t) && Linked(g, t, n, n + 1)
    && g[n] == Node([], RetK(snaplen), NIL, NIL) && g[n + 1] == Node([], RetK(0), NIL, NIL)
    && forall x {:trigger x in Leaves(t)} :: x in Leaves(t) <==> 0 <= x < n
  }

  function IndexOf(xs: seq<Id>, b: Id): (i: nat)
    requires b in xs
    ensures i < |xs| && xs[i] == b
  {
    if xs[0] == b then 0 else 1 + IndexOf(xs[1..], b)
  }

  // Leaves further to the left are on higher levels.
  ghost function TreeLevels(g: Graph, t: Tree): Levels {
    seq(|g|, b requires 0 <= b < |g| => if b in Leaves(t) then |Leaves(t)| - IndexOf(Leaves(t), b) else 0)
  }

  lemma {:induction false} FinishedLeveled(g: Graph, t: Tree, snaplen: Word)
    requires Finished(g, t, snaplen)
    ensures Leveled(g, TreeLevels(g, t)) && First(t) < |g|
  {
    hide Link, Leaves;
    var lv := TreeLevels(g, t);
    forall b | 0 <= b < |g|
      ensures if g[b].s.Jmp? then
                0 <= g[b].jt < |g| && 0 <= g[b].jf < |g| && lv[g[b].jt] < lv[b] && lv[g[b].jf] < lv[b]
              else g[b].jt == NIL && g[b].jf == NIL
    {
      if b in Leaves(t) { LeafLevel(g, t, snaplen, b); } else { assert b == |g| - 2 || b == |g| - 1; }
    }
    assert First(t) in Leaves(t) by { FirstIn(t); }
  }

  predicate FinishedAt(g: Graph, lv: Levels, b: Id)
    requires b < |g| == |lv|
  {
    if g[b].s.Jmp? then
      0 <= g[b].jt < |g| && 0 <= g[b].jf < |g| && lv[g[b].jt] < lv[b] && lv[g[b].jf] < lv[b]
    else g[b].jt == NIL && g[b].jf == NIL
  }

  lemma {:induction false} FirstIn(t: Tree)
    ensures First(t) in Leaves(t)
  {
  }

  lemma {:induction false} LeafLevel(g: Graph, t: Tree, snaplen: Word, b: Id)
    requires Finished(g, t, snaplen) && b in Leaves(t)
    ensures b < |g| && FinishedAt(g, TreeLevels(g, t), b)
  {
    hide Link;
    var n := |g| - 2;
    assert LinkedAt(g, t, b, n, n + 1);
    var i := IndexOf(Leaves(t), b);
    TargetLevel(g, t, snaplen, i, true, g[b].jt);
    TargetLevel(g, t, snaplen, i, false, g[b].jf);
  }

  lemma {:induction false} TargetLevel(g: Graph, t: Tree, snaplen: Word, i: nat, side: bool, x: Ref)
    requires Finished(g, t, snaplen) && i < |Leaves(t)|
    requires Link(t, Leaves(t)[i], side, Goto(|g| - 2), Goto(|g| - 1)) == Goto(x)
    ensures 0 <= x < |g| && TreeLevels(g, t)[x] < |Leaves(t)| - i
  {
    hide Link;
    var j := LinkForward(t, i, side, Goto(|g| - 2), Goto(|g| - 1));
    if j < |Leaves(t)| {
      assert x in Leaves(t);
      var k := IndexOf(Leaves(t), x);
      assert k == j by { Unique(Leaves(t), k, j); }
    }
  }

  lemma {:induction false} Unique(xs: seq<Id>, i: nat, j: nat)
    requires NoDup(xs) && i < |xs| && j < |xs| && xs[i] == xs[j]
    ensures i == j
  {
  }

  // The outcome that an answer stands for.
  function Returns(a: Answer, snaplen: Word): Outcome {
    match a case None => Fault case Some(h) => Return(if h then snaplen else 0)
  }

  /** A finished graph returns snaplen exactly when evaluation accepts, and 0 or a fault when it does not. */
  lemma {:induction false} FinishedRun(g: Graph, t: Tree, snaplen: Word, st: State, p: Packet, a: Answer, fuel: nat)
    requires Finished(g, t, snaplen) && Closed(g) && Means(g, t, p, a)
    ensures First(t) < |g| && Run(g, First(t), st, p, TestsRun(g, t, st, p) + 1 + fuel) == Returns(a, snaplen)
  {
    FirstIn(t);
    LinkedRun(g, t, |g| - 2, |g| - 1, st, p, 1 + fuel);
    assert Matches(Eval(g, t, st, p), a);
  }

  /** No filter at all accepts every packet. */
  function Accepts(f: Option<Filter>, p: Packet): Answer {
    match f case None => Some(true) case Some(x) => Meaning(x, p)
  }

  predicate Acceptable(f: Option<Filter>) { f.Some? ==> WellFormed(f.value) }

  predicate Compiles(f: Option<Filter>) { f.Some? ==> Compilable(f.value) }

  // Some division in the filter.
  predicate MayDivide(f: Option<Filter>) { f.Some? && DividesIn(f.value) }

  // The graph of an empty expression.
  function AcceptAll(snaplen: Word): Graph { [Node([], RetK(snaplen), NIL, NIL)] }

  lemma {:induction false} AcceptAllRun(snaplen: Word)
    ensures Leveled(AcceptAll(snaplen), [0]) && OwnFrom(AcceptAll(snaplen), 0) && ReturnsConstants(AcceptAll(snaplen))
    ensures PlainReturns(AcceptAll(snaplen)) && TameFrom(AcceptAll(snaplen), 0, false)
    ensures forall st: State, p: Packet, fuel: nat :: 0 < fuel ==> Run(AcceptAll(snaplen), 0, st, p, fuel) == Return(snaplen)
  {
  }

  /** What the parser leaves: the finished graph of the filter, or a return if there is none. It returns snaplen for the packets
      accepted and 0 for the others, faults exactly when evaluating the filter does, and each of its blocks sets all it reads. */
  method Generate(f: Option<Filter>, snaplen: Word) returns (ok: bool, g: Graph, root: Id, ghost lv: Levels)
    requires Acceptable(f)
    ensures ok <==> Compiles(f)
    ensures ok ==> Leveled(g, lv) && root < |g| && OwnFrom(g, 0) && ReturnsConstants(g) && PlainReturns(g) && TameFrom(g, 0, MayDivide(f))
    ensures ok ==> forall st: State, p: Packet, fuel: nat :: lv[root] < fuel ==> Run(g, root, st, p, fuel) == Returns(Accepts(f, p), snaplen)
  {
    hide Leveled, OwnFrom, TameFrom, Meaning, Run;
    if f.None? {
      ok, g, root, lv := true, AcceptAll(snaplen), 0, [0];
      AcceptAllRun(snaplen);
    } else {
      ok, g, root, lv := GenerateFilter(f.value, snaplen);
    }
  }

  method GenerateFilter(f: Filter, snaplen: Word) returns (ok: bool, g: Graph, root: Id, ghost lv: Levels)
    requires WellFormed(f)
    ensures ok <==> Compilable(f)
    ensures ok ==> Leveled(g, lv) && root < |g| && OwnFrom(g, 0) && ReturnsConstants(g) && PlainReturns(g) && TameFrom(g, 0, DividesIn(f))
    ensures ok ==> forall st: State, p: Packet, fuel: nat :: lv[root] < fuel ==> Run(g, root, st, p, fuel) == Returns(Meaning(f, p), snaplen)
  {
    hide Holds, Means, Leaves, Linked, OwnFrom, TameFrom, Finished, Touched, Meaning, ReturnsConstants, PlainReturns;
    g, root, lv := [], 0, [];
    var gen := new Generator(DividesIn(f));
    var regs := new Registers();
    var b;
    ghost var t;
    ok, b, t := GenFilter(gen, regs, f);
    if !ok { return; }
    ghost var n := gen.node;
    GrowsDistinct(Table([], [], [], DividesIn(f)), gen.Now(), b, t);
    root := gen.FinishParse(b, snaplen, t);
    g := gen.node;
    OwnFinished(n, g, t, snaplen, DividesIn(f));
    TouchedFinished(n, g, t, snaplen);
    FinishedLeveled(g, t, snaplen);
    FinishedReturns(g, t, snaplen);
    lv := TreeLevels(g, t);
    forall st: State, p: Packet, fuel: nat | lv[root] < fuel ensures Run(g, root, st, p, fuel) == Returns(Meaning(f, p), snaplen) {
      GeneratedRun(n, g, t, snaplen, st, p, Meaning(f, p), lv, fuel);
    }
  }

  lemma {:induction false} GeneratedRun(n: Graph, g: Graph, t: Tree, snaplen: Word, st: State, p: Packet, a: Answer, lv: Levels, fuel: nat)
    requires Finished(g, t, snaplen) && Leveled(g, lv) && First(t) < |g| && lv[First(t)] < fuel
    requires Means(n, t, p, a) && Touched(n, g, Leaves(t))
    ensures Run(g, First(t), st, p, fuel) == Returns(a, snaplen)
  {
    hide Finished, Means, Leaves, Returns;
    MeansKept(n, g, t, p, a);
    FinishedRun(g, t, snaplen, st, p, a, lv[First(t)]);
    RunTerminates(g, lv, First(t), st, p, TestsRun(g, t, st, p) + 1 + lv[First(t)]);
    RunTerminates(g, lv, First(t), st, p, fuel);
  }

  lemma {:induction false} FinishedReturns(g: Graph, t: Tree, snaplen: Word)
    requires Finished(g, t, snaplen)
    ensures ReturnsConstants(g) && PlainReturns(g)
  {
    hide Link, Leaves;
    forall b | 0 <= b < |g| ensures !g[b].s.RetA? && (!g[b].s.Jmp? ==> g[b].stmts == []) {
      if b in Leaves(t) { assert LinkedAt(g, t, b, |g| - 2, |g| - 1); } else { assert b == |g| - 2 || b == |g| - 1; }
    }
  }

  lemma {:induction false} OwnFinished(n: Graph, g: Graph, t: Tree, snaplen: Word, divides: bool)
    requires OwnFrom(n, 0) && TameFrom(n, 0, divides) && |g| == |n| + 2 && Touched(n, g, Leaves(t))
    requires g[|n|] == Node([], RetK(snaplen), NIL, NIL) && g[|n| + 1] == Node([], RetK(0), NIL, NIL)
    ensures OwnFrom(g, 0) && TameFrom(g, 0, divides)
  {
    forall x | 0 <= x < |g| ensures Liveness.SelfContained(g[x]) && Tame(g[x].stmts, divides) {
      if x < |n| { assert Liveness.SelfContained(n[x]); } else { assert x == |n| || x == |n| + 1; }
    }
  }

  /** Compile a filter, or none: generate and flatten. Fails when snaplen is 0 or a relation needs too many registers. The
      program returns snaplen for the packets the filter accepts and 0 for those it rejects, and faults exactly when evaluating
      the filter does. */
  method PcapCompile(f: Option<Filter>, snaplen: Word) returns (ok: bool, code: array<Insn>)
    requires Acceptable(f)
    ensures ok <==> snaplen != 0 && Compiles(f)
    ensures ok ==> fresh(code) && Forward(code[..])
    ensures ok ==> forall st: State, p: Packet ::
      (Accepts(f, p) == Some(true) ==> RunCode(code[..], 0, st, p) == Return(snaplen))
      && (Accepts(f, p) == Some(false) ==> RunCode(code[..], 0, st, p) == Return(0))
      && (Accepts(f, p) == None ==> RunCode(code[..], 0, st, p) == Fault)
    ensures ok && f.None? ==> forall st: State, p: Packet :: RunCode(code[..], 0, st, p) == Return(snaplen)
  {
    hide Assembled, OwnFrom, TameFrom, Accepts, Compiles;
    code := new Insn[0];
    if snaplen == 0 { return false, code; }
    var g, root;
    ghost var lv, retries;
    ok, g, root, lv := Generate(f, snaplen);
    if !ok { return; }
    var asm := new Assembler(g);
    code, retries := asm.IcodeToFcode(root, lv);
    EmptyAccepts(f);
    forall st: State, p: Packet ensures RunCode(code[..], 0, st, p) == Returns(Accepts(f, p), snaplen) {
      assert Run(g, root, st, p, lv[root] + 1) == Returns(Accepts(f, p), snaplen);
    }
  }

  lemma {:induction false} EmptyAccepts(f: Option<Filter>)
    ensures f.None? ==> forall p: Packet :: Accepts(f, p) == Some(true)
  {
  }

  lemma {:induction false} GrowsDistinct(o: Table, n: Table, b: Id, t: Tree)
    requires Grows(o, n, b, t)
    ensures Distinct(t) && OwnFrom(n.node, |o.node|) && TameFrom(n.node, |o.node|, n.divides)
  {
  }

  lemma {:induction false} TouchedFinished(n: Graph, g: Graph, t: Tree, snaplen: Word)
    requires |g| == |n| + 2 && Distinct(t) && Linked(g, t, |n|, |n| + 1)
    requires g[|n|] == Node([], RetK(snaplen), NIL, NIL) && g[|n| + 1] == Node([], RetK(0), NIL, NIL)
    requires forall x {:trigger x in Leaves(t)} :: x in Leaves(t) <==> 0 <= x < |n|
    ensures Finished(g, t, snaplen)
  {
  }
}
