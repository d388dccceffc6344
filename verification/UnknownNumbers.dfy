/** Why nothing may be read that has no number: number 0 stands for values that differ. */
module UnknownNumbers {
  import opened Words
  import opened Bpf
  import opened Blocks
  import opened Reach
  import opened Dominators
  import opened InEdges
  import opened Values
  import opened Treatments
  import opened ValueFlow
  import opened ValuePass
  import opened ValueSound
  import opened DeadStores
  import LostStores

  // A block with the given statements and branch, and the two returns.
  function OneBlock(ss: seq<Stmt>, br: Branch): Graph
    requires br.Jmp?
  {
    [Node(ss, br, 1, 2), Node([], RetK(1), NIL, NIL), Node([], RetK(0), NIL, NIL)]
  }

  /** Nothing is known when its only block starts. */
  lemma {:induction false} OneBlockEntry(ss: seq<Stmt>, br: Branch, s: Snapshot, inEdges: seq<seq<EdgeId>>, reach: set<Id>)
    requires br.Jmp? && Finished(OneBlock(ss, br), s, inEdges, true, 0, reach)
    ensures Shaped(OneBlock(ss, br), s, inEdges) && DoneAt(OneBlock(ss, br), s, inEdges, true, 0)
    ensures forall x: Atom :: EntryVals(OneBlock(ss, br), s, inEdges, 0)[x] == 0
  {
    hide DoneAt, Distinct, Whole;
    var g := OneBlock(ss, br);
    LostStores.EntersOnly(g, reach, inEdges, 0);
    assert forall e :: 0 <= e < 2 * |g| ==> Head(g, e) != 0;
    LostStores.HasOne(inEdges[0]);
    forall x: Atom ensures EntryVals(g, s, inEdges, 0)[x] == 0 {
      assert EntryVals(g, s, inEdges, 0)[x] == Common(PredNumbers(g, inEdges[0], s.val, x));
    }
  }

  /** What running it returns. */
  lemma {:induction false} OneBlockRun(ss: seq<Stmt>, br: Branch, ss2: seq<Stmt>, g2: Graph, st: State, p: Packet)
    requires br.Jmp? && Exec(ss2, st, p).Some? && g2 == OneBlock(ss, br)[0 := OneBlock(ss, br)[0].(stmts := ss2)]
    ensures Closed(g2) && Run(g2, 0, st, p, 2) == Return(if Taken(br, Exec(ss2, st, p).value) then 1 else 0)
  {
    hide Exec, Taken;
    assert Exec([], Exec(ss2, st, p).value, p) == Some(Exec(ss2, st, p).value) by { NothingLeft(Exec(ss2, st, p).value, p); }
  }

  // A move from atom a, to X if a is A and to A otherwise, and a test of where it went.
  function Move(a: Atom): Stmt { if a == A_ATOM then Tax else if a == X_ATOM then Txa else LdMem(a) }

  function MoveTest(a: Atom): Branch { if a == A_ATOM then Jmp(Jeq, X) else Jmp(Jeq, K(0)) }

  function Moved(a: Atom): Graph { OneBlock([Move(a)], MoveTest(a)) }

  lemma {:induction false} MoveGone(a: Atom, entry: Vals, ss2: seq<Stmt>, val2: Vals, keys: seq<Key>)
    requires ExactlyAll([Move(a)], entry, true, ss2, val2, keys) && forall x: Atom :: entry[x] == 0
    ensures ss2 == [Nop]
  {
    assert [Move(a)][1..] == [];
    assert ss2[1..] == [];
  }

  /** Both ends of the move have number 0, so it is dropped as if they were equal, and the result changes. */
  lemma {:induction false} MoveLost(a: Atom, s: Snapshot, inEdges: seq<seq<EdgeId>>, reach: set<Id>, st: State, p: Packet)
    requires Finished(Moved(a), s, inEdges, true, 0, reach)
    requires if a == A_ATOM then st[A_ATOM] != st[X_ATOM] else st[a] == 0 && st[A_ATOM] == 1
    ensures Closed(Moved(a)) && Closed(s.node) && |s.node| == 3 && Exposed([Move(a)]) == {a}
    ensures Run(Moved(a), 0, st, p, 2) == Return(1)
    ensures Run(s.node, 0, st, p, 2) == Return(0)
  {
    hide ExactlyAll, Numbered, Issued, OperandNumber, Exec, Run, Entering, IsReach;
    var ss, br := [Move(a)], MoveTest(a);
    OneBlockEntry(ss, br, s, inEdges, reach);
    MoveGone(a, EntryVals(Moved(a), s, inEdges, 0), s.node[0].stmts, s.val[0], s.keys);
    NodesKept(Moved(a), s, inEdges, reach);
    assert Moved(a) == OneBlock(ss, br)[0 := OneBlock(ss, br)[0].(stmts := ss)];
    MoveRun(a, st, p);
    OneBlockRun(ss, br, ss, Moved(a), st, p);
    OneBlockRun(ss, br, [Nop], s.node, st, p);
    MoveReads(a);
  }

  lemma {:induction false} MoveReads(a: Atom)
    ensures Exposed([Move(a)]) == {a} && Exposed([]) == {}
  {
    LostStores.LiveOne(Move(a), {});
  }

  lemma {:induction false} NodesKept(g: Graph, s: Snapshot, inEdges: seq<seq<EdgeId>>, reach: set<Id>)
    requires Progress(g, s, inEdges, true, reach) && forall b :: 0 < b < |g| ==> g[b].stmts == []
    ensures |s.node| == |g| && forall b :: 0 <= b < |g| ==> s.node[b] == g[b].(stmts := s.node[b].stmts)
    ensures forall b :: 0 < b < |g| ==> s.node[b] == g[b]
  {
    hide Numbered, OperandNumber, Issued;
    forall b | 0 <= b < |g| ensures s.node[b] == g[b].(stmts := s.node[b].stmts) && (b > 0 ==> s.node[b] == g[b]) {
      if b in reach { assert DoneAt(g, s, inEdges, true, b); }
    }
  }

  lemma {:induction false} MoveRun(a: Atom, st: State, p: Packet)
    ensures Exec([Move(a)], st, p) == Some(if a == A_ATOM then st[X_ATOM := st[A_ATOM]] else st[A_ATOM := st[a]])
    ensures Exec([Nop], st, p) == Some(st)
  {
    ExecOne(Move(a), st, p);
    ExecOne(Nop, st, p);
  }

  /** What a block reads before it has set it has to be in P. */
  predicate ReadsOnly(g: Graph, P: set<Atom>) {
    forall b {:trigger g[b]} :: 0 <= b < |g| ==> Exposed(g[b].stmts) <= P
  }

  // The same operation on two words without numbers, compared.
  function TwoNegations(): seq<Stmt> { [Neg, Tax, LdMem(1), Neg, Tax] }

  lemma {:induction false} NegationsGone(entry: Vals, ss2: seq<Stmt>, val2: Vals, keys: seq<Key>)
    requires ExactlyAll(TwoNegations(), entry, true, ss2, val2, keys) && forall x: Atom :: entry[x] == 0
    ensures ss2 == [Neg, Tax, LdMem(1), Neg, Nop]
  {
    hide NumOf;
    var n := NumOf(keys, Key(CNeg, 0, 0));
    var s0 := TwoNegations();
    var s1, s2, s3, s4 := [Tax, LdMem(1), Neg, Tax], [LdMem(1), Neg, Tax], [Neg, Tax], [Tax];
    assert s0[1..] == s1 && s1[1..] == s2 && s2[1..] == s3 && s3[1..] == s4 && s4[1..] == [];
    var v1: Vals := entry[A_ATOM := n];
    assert n > 0 && ss2[0] == Neg && ExactlyAll(s1, v1, true, ss2[1..], val2, keys);
    var t1 := ss2[1..];
    var v2: Vals := v1[X_ATOM := n];
    assert t1[0] == Tax && ExactlyAll(s2, v2, true, t1[1..], val2, keys);
    var t2 := t1[1..];
    var v3: Vals := v2[A_ATOM := 0];
    assert t2[0] == LdMem(1) && ExactlyAll(s3, v3, true, t2[1..], val2, keys);
    var t3 := t2[1..];
    NegThenTax(v3, n, t3, val2, keys);
    assert ss2 == [ss2[0]] + t1 && t1 == [t1[0]] + t2 && t2 == [t2[0]] + t3;
  }

  lemma {:induction false} NegThenTax(val: Vals, n: nat, ss2: seq<Stmt>, val2: Vals, keys: seq<Key>)
    requires ExactlyAll([Neg, Tax], val, true, ss2, val2, keys)
    requires val[A_ATOM] == 0 && n == NumOf(keys, Key(CNeg, 0, 0)) && val[X_ATOM] == n
    ensures ss2 == [Neg, Nop]
  {
    hide NumOf;
    assert [Neg, Tax][1..] == [Tax] && [Tax][1..] == [];
    assert ss2[1..][1..] == [];
    assert ss2 == [ss2[0]] + ss2[1..];
  }

  /** Negating two words that have no number gives results that have the same: the second is not moved to X, and the
      comparison fails. */
  lemma {:induction false} NegationLost(s: Snapshot, inEdges: seq<seq<EdgeId>>, reach: set<Id>, st: State, p: Packet)
    requires Finished(OneBlock(TwoNegations(), Jmp(Jeq, X)), s, inEdges, true, 0, reach) && st[A_ATOM] != st[1]
    ensures var g := OneBlock(TwoNegations(), Jmp(Jeq, X));
      && Closed(g) && Closed(s.node) && |s.node| == 3
      && Run(g, 0, st, p, 2) == Return(1) && Run(s.node, 0, st, p, 2) == Return(0)
  {
    hide ExactlyAll, Numbered, Issued, OperandNumber, Exec, Run, Entering, IsReach, TwoNegations;
    var ss, br := TwoNegations(), Jmp(Jeq, X);
    var g := OneBlock(ss, br);
    OneBlockEntry(ss, br, s, inEdges, reach);
    NegationsGone(EntryVals(g, s, inEdges, 0), s.node[0].stmts, s.val[0], s.keys);
    NodesKept(g, s, inEdges, reach);
    assert g == g[0 := g[0].(stmts := ss)];
    NegationsRun(st, p);
    OneBlockRun(ss, br, ss, g, st, p);
    OneBlockRun(ss, br, [Neg, Tax, LdMem(1), Neg, Nop], s.node, st, p);
  }

  lemma {:induction false} NegationsRun(st: State, p: Packet)
    requires st[A_ATOM] != st[1]
    ensures Exec(TwoNegations(), st, p).Some? && Exec([Neg, Tax, LdMem(1), Neg, Nop], st, p).Some?
    ensures Taken(Jmp(Jeq, X), Exec(TwoNegations(), st, p).value)
    ensures !Taken(Jmp(Jeq, X), Exec([Neg, Tax, LdMem(1), Neg, Nop], st, p).value)
  {
    hide Exec, Opposite;
    var n, m := Opposite(st[A_ATOM]), Opposite(st[1]);
    var x: State := st[A_ATOM := n][X_ATOM := n][A_ATOM := m];
    FirstFour(st, p);
    ExecConcat([Neg, Tax, LdMem(1), Neg], [Tax], st, p);
    ExecConcat([Neg, Tax, LdMem(1), Neg], [Nop], st, p);
    assert TwoNegations() == [Neg, Tax, LdMem(1), Neg] + [Tax] && [Neg, Tax, LdMem(1), Neg, Nop] == [Neg, Tax, LdMem(1), Neg] + [Nop];
    ExecOne(Tax, x, p);
    ExecOne(Nop, x, p);
    OppositeDiffers(st[A_ATOM], st[1]);
  }

  lemma {:induction false} FirstFour(st: State, p: Packet)
    ensures var n, m := Opposite(st[A_ATOM]), Opposite(st[1]);
      Exec([Neg, Tax, LdMem(1), Neg], st, p) == Some(st[A_ATOM := n][X_ATOM := n][A_ATOM := m])
  {
    hide Exec, Opposite;
    var n, m := Opposite(st[A_ATOM]), Opposite(st[1]);
    var x1: State := st[A_ATOM := n];
    var x2: State := x1[X_ATOM := n];
    var x3: State := x2[A_ATOM := st[1]];
    var ss := [Neg, Tax, LdMem(1), Neg];
    assert ss[1..] == [Tax, LdMem(1), Neg] && [Tax, LdMem(1), Neg][1..] == [LdMem(1), Neg] && [LdMem(1), Neg][1..] == [Neg];
    LostStores.ExecHead(ss, st, p);
    LostStores.ExecHead([Tax, LdMem(1), Neg], x1, p);
    LostStores.ExecHead([LdMem(1), Neg], x2, p);
    ExecOne(Neg, x3, p);
    assert x3[A_ATOM := m] == x2[A_ATOM := m];
  }

  lemma {:induction false} OppositeDiffers(a: Word, b: Word)
    ensures Opposite(a) == Opposite(b) <==> a == b
  {
  }
}
