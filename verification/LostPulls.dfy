/** Pulls that change a result: of a block that another one on the chain prepares, of one that reads what nobody set, and of one whose
    fault does not show in the value it tests. */
module LostPulls {
  import opened Words
  import opened Bpf
  import opened Blocks
  import opened Reach
  import opened Dominance
  import opened Dominators
  import opened InEdges
  import opened Liveness
  import opened Values
  import opened Treatments
  import opened Walks
  import opened ValueFlow
  import opened ValuePass
  import opened ValueSound
  import opened DeadStores
  import opened Setters
  import opened GeneratorForm
  import opened Crossings
  import opened Pullup
  import opened PullFaults
  import opened ShownFaults
  import LostStores

  // Three tests in a row, the alternatives of a disjunction.
  function Three(s0: seq<Stmt>, s1: seq<Stmt>, s2: seq<Stmt>, j0: Branch, j1: Branch, j2: Branch): Graph {
    [ Node(s0, j0, 3, 1),
      Node(s1, j1, 3, 2),
      Node(s2, j2, 3, 4),
      Node([], RetK(1), NIL, NIL),
      Node([], RetK(0), NIL, NIL) ]
  }

  predicate Jumps(g: Graph) { |g| == 5 && g == Three(g[0].stmts, g[1].stmts, g[2].stmts, g[0].s, g[1].s, g[2].s) && g[0].s.Jmp? && g[1].s.Jmp? && g[2].s.Jmp? }

  lemma {:induction false} ThreeSuccs(g: Graph)
    requires Jumps(g)
    ensures SuccSet(g, 0) == {3, 1} && SuccSet(g, 1) == {3, 2} && SuccSet(g, 2) == {3, 4} && SuccSet(g, 3) == {} && SuccSet(g, 4) == {}
    ensures Leveled(g, [3, 2, 1, 0, 0])
  {
  }

  lemma {:induction false} ThreeReach(g: Graph, S: set<Id>)
    requires Jumps(g) && IsReach(g, 0, S)
    ensures S == ALL_FIVE
  {
    hide SuccSet, Jumps;
    ThreeSuccs(g);
    ThreeSize(g);
    assert ClosedUnder(g, ALL_FIVE);
    assert {3, 1} <= S && SuccSet(g, 1) <= S && SuccSet(g, 2) <= S;
  }

  lemma {:induction false} ThreeSize(g: Graph)
    requires Jumps(g)
    ensures |g| == 5
  {
  }

  /** The second block dominates itself and the third. */
  lemma {:induction false} ThreeDominators(g: Graph)
    requires Jumps(g)
    ensures BlockDominates(g, 0, 1, 1) && BlockDominates(g, 0, 1, 2)
  {
    hide Jumps;
    ThreeSuccs(g);
    ThreeSize(g);
    var pred := BlockPreds(g);
    forall p | PathTo(pred, {0}, p, 1) ensures 1 in p { PathEnds(pred, {0}, p, 1); }
    forall p | PathTo(pred, {0}, p, 2) ensures 1 in p {
      assert |p| > 1;
      var m := p[|p|-2];
      assert m in pred[2] && 2 in SuccSet(g, m);
      assert m == 1 && m in p;
    }
  }

  /** Where the first and the third block leave the same number in A and the second another, the third is to be pulled up. */
  lemma {:induction false} ThreeWanted(g: Graph, fx: Facts, S: set<Id>, level: seq<nat>)
    requires Jumps(g) && Current(g, fx, 0, S, level)
    requires fx.val[0][A_ATOM] == fx.val[2][A_ATOM] != fx.val[1][A_ATOM]
    ensures 1 in S && |fx.dom| == |g| == 5 && PredsAre(g, fx, 1, fx.val[0][A_ATOM]) && Wanted(g, fx, 1, true, fx.val[0][A_ATOM], [1, 2], 0)
  {
    hide IsReach, Descends, BlockDominates;
    assert IsReach(g, 0, S);
    ThreeReach(g, S);
    ThreeDominators(g);
    ThreeEdges(g, fx.inEdges, S);
    var v, chain := fx.val[0][A_ATOM], [1, 2];
    assert Fits(g, fx, 1, true, 1) && Fits(g, fx, 1, true, 2);
    assert !NumberIs(fx, chain, v, 0) && NumberIs(fx, chain, v, 1);
    assert FitChain(g, fx, 1, true, chain);
  }

  /** Only the first block leads to the second. */
  lemma {:induction false} ThreeEdges(g: Graph, inEdges: seq<seq<EdgeId>>, S: set<Id>)
    requires Jumps(g) && Entering(g, S, inEdges) && S == ALL_FIVE
    ensures |inEdges[1]| > 0 && TailsIn(g, inEdges[1], 5) && forall i {:trigger inEdges[1][i]} :: 0 <= i < |inEdges[1]| ==> Tail(g, inEdges[1][i]) == 0
    ensures |inEdges[2]| > 0 && TailsIn(g, inEdges[2], 5) && forall i {:trigger inEdges[2][i]} :: 0 <= i < |inEdges[2]| ==> Tail(g, inEdges[2][i]) == 1
    ensures inEdges[0] == []
  {
    assert EntersAt(g, S, inEdges, 1, EdgeOf(g, 0, false)) && EntersAt(g, S, inEdges, 2, EdgeOf(g, 1, false));
    forall i | 0 <= i < |inEdges[1]| ensures inEdges[1][i] < 10 && Tail(g, inEdges[1][i]) == 0 {
      assert EntersAt(g, S, inEdges, 1, inEdges[1][i]);
    }
    forall i | 0 <= i < |inEdges[2]| ensures inEdges[2][i] < 10 && Tail(g, inEdges[2][i]) == 1 {
      assert EntersAt(g, S, inEdges, 2, inEdges[2][i]);
    }
    assert |inEdges[0]| > 0 ==> EntersAt(g, S, inEdges, 0, inEdges[0][0]);
  }

  /** And a pull there does just that. */
  lemma {:induction false} ThreePulled(g: Graph, g2: Graph, fx: Facts, S: set<Id>, level: seq<nat>, chain: seq<Id>, k: nat)
    requires Jumps(g) && PullOf(g, g2, fx, 0, S, level, 1, true, chain, k)
    ensures SameBlocks(g, g2) && |g2| == 5 && g2[0].jt == g2[1].jt == g2[2].jt == 3 && g2[0].jf == 2 && g2[2].jf == 1 && g2[1].jf == 4
  {
    hide Found, PredsAre, Descends, BlockDominates, NumberIs, IsReach;
    assert IsReach(g, 0, S);
    ThreeReach(g, S);
    var v: nat :| PredsAre(g, fx, 1, v) && Wanted(g, fx, 1, true, v, chain, k);
    ThreeChain(g, fx, chain);
    assert PulledAt(g, g2, true, chain, k, 0) && PulledAt(g, g2, true, chain, k, 1) && PulledAt(g, g2, true, chain, k, 2);
  }

  lemma {:induction false} ThreeChain(g: Graph, fx: Facts, chain: seq<Id>)
    requires Jumps(g) && |fx.dom| == |g| && FitChain(g, fx, 1, true, chain) && |chain| > 1
    ensures chain == [1, 2]
  {
    assert NextAt(g, true, chain, 0);
    assert |chain| > 2 ==> NextAt(g, true, chain, 1);
  }

  /** The numbers the blocks start with: none, and then those of the block before. */
  lemma {:induction false} ThreeEntries(g: Graph, s: Snapshot, inEdges: seq<seq<EdgeId>>, reach: set<Id>)
    requires Jumps(g) && Finished(g, s, inEdges, false, 0, reach)
    ensures reach == ALL_FIVE && Shaped(g, s, inEdges)
    ensures forall x: Atom :: EntryVals(g, s, inEdges, 0)[x] == 0
    ensures EntryVals(g, s, inEdges, 1) == s.val[0] && EntryVals(g, s, inEdges, 2) == s.val[1]
  {
    hide DoneAt, Distinct, Whole, Jumps, IsReach, Entering;
    FinishedReach(g, s, inEdges, 0, reach);
    ThreeReach(g, reach);
    ThreeSize(g);
    ThreeEdges(g, inEdges, reach);
    forall x: Atom ensures EntryVals(g, s, inEdges, 0)[x] == 0 && EntryVals(g, s, inEdges, 1)[x] == s.val[0][x] && EntryVals(g, s, inEdges, 2)[x] == s.val[1][x] {
      assert EntryVals(g, s, inEdges, 0)[x] == Common(PredNumbers(g, inEdges[0], s.val, x));
      assert AllAre(PredNumbers(g, inEdges[1], s.val, x), s.val[0][x]);
      assert AllAre(PredNumbers(g, inEdges[2], s.val, x), s.val[1][x]);
    }
  }

  // The first test leaves 1 in A and sets a; the second sets a again; the third compares 1 with a.
  function Prepare(a: Atom): seq<Stmt> { if a == A_ATOM then [LdImm(0)] else [LdImm(7), LostStores.Keep(a), LdImm(2)] }

  function Compare(a: Atom): seq<Stmt> {
    if a == A_ATOM then [Tax, LdImm(1)] else if a == X_ATOM then [LdImm(1)] else [LdxMem(a), LdImm(1)]
  }

  function Prepared(a: Atom): Graph { Three(First(a), Prepare(a), Compare(a), Jmp(Jeq, K(9)), Jmp(Jeq, K(9)), Jmp(Jgt, X)) }

  lemma {:induction false} SetTo(k: Word, a: Atom, v: Word, sym: Sym)
    requires a != A_ATOM
    ensures SymExec([LdImm(k), LostStores.Keep(a), LdImm(v)], sym)[A_ATOM] == Const(v)
  {
    var ss := [LdImm(k), LostStores.Keep(a), LdImm(v)];
    assert ss == [LdImm(k), LostStores.Keep(a)] + [LdImm(v)];
    SymExecPush([LdImm(k), LostStores.Keep(a)], LdImm(v), sym);
  }

  lemma {:induction false} PreparedTerms(a: Atom, sym: Sym)
    ensures SymExec(Prepare(a), sym)[A_ATOM] == Const(if a == A_ATOM then 0 else 2) && SymExec(Compare(a), sym)[A_ATOM] == Const(1)
  {
    if a != A_ATOM { SetTo(7, a, 2, sym); }
    assert [LdImm(0)][1..] == [];
    var c := Compare(a);
    assert c == c[..|c|-1] + [LdImm(1)];
    SymExecPush(c[..|c|-1], LdImm(1), sym);
  }

  /** The first and the third leave the number of 1 in A, the second another. */
  lemma {:induction false} PreparedNumbers(a: Atom, s: Snapshot, inEdges: seq<seq<EdgeId>>, reach: set<Id>)
    requires Finished(Prepared(a), s, inEdges, false, 0, reach) && ConstsDistinct(s.den)
    ensures Shaped(Prepared(a), s, inEdges) && s.val[0][A_ATOM] == s.val[2][A_ATOM] != s.val[1][A_ATOM]
  {
    hide Distinct, Whole, DoneAt, SymExec, First, Prepare, Compare, Entering, EntryVals, IsReach;
    var g := Prepared(a);
    FinishedReach(g, s, inEdges, 0, reach);
    ThreeReach(g, reach);
    assert DoneAt(g, s, inEdges, false, 0) && DoneAt(g, s, inEdges, false, 1) && DoneAt(g, s, inEdges, false, 2);
    EntryOk(g, s, inEdges, 0);
    EntryOk(g, s, inEdges, 1);
    EntryOk(g, s, inEdges, 2);
    SecondTerms(a, SymOf(s.den, EntryVals(g, s, inEdges, 0)));
    PreparedTerms(a, SymOf(s.den, EntryVals(g, s, inEdges, 1)));
    PreparedTerms(a, SymOf(s.den, EntryVals(g, s, inEdges, 2)));
    assert s.den[s.val[0][A_ATOM]] == Const(1) == s.den[s.val[2][A_ATOM]] && s.den[s.val[1][A_ATOM]] != Const(1);
  }

  /** Nothing but a is shared, and nothing faults. */
  lemma {:induction false} PreparedForm(a: Atom, P: set<Atom>)
    requires a in P
    ensures SharesOnly(Prepared(a), 0, P, false) && AllFeed(Prepared(a)) && Leveled(Prepared(a), [3, 2, 1, 0, 0])
  {
    hide NodeReads, Leads, SetElsewhere, Defs, First, Prepare, Compare, FaultsFeed;
    ThreeSuccs(Prepared(a));
    PreparedReads(a);
    PreparedFeeds(a);
  }

  lemma {:induction false} PreparedReads(a: Atom)
    ensures var g := Prepared(a);
      && NodeReads(g[0]) == {} && NodeReads(g[1]) == {} && NodeReads(g[2]) == {a} && NodeReads(g[3]) == {} && NodeReads(g[4]) == {} && a in Defs(First(a))
  {
    hide LiveIn, Uses, Def, Defs, LostStores.Keep;
    var g := Prepared(a);
    CrossingReads(a);
    SameReads(g[0], Crossing(a)[0]);
    LostStores.LiveNone(RetK(0), {});
    ImmReads(0);
    ImmReads(1);
    if a == A_ATOM {
      LostStores.LiveOne(LdImm(0), {A_ATOM});
      LostStores.LivePair(Tax, LdImm(1), RetK(0), {A_ATOM, X_ATOM});
      MoveReads();
    } else {
      SetReads(7, a, 2);
      CompareReads(a);
    }
  }

  lemma {:induction false} MoveReads()
    ensures Uses(Tax) == {A_ATOM} && Def(Tax) == X_ATOM && CountedUses(RetK(0)) == {}
  {
  }

  lemma {:induction false} CompareReads(a: Atom)
    requires a != A_ATOM
    ensures LiveIn(Compare(a), RetK(0), {A_ATOM, X_ATOM}) == {a}
  {
    hide LiveIn, Uses, Def;
    ImmReads(1);
    if a == X_ATOM {
      LostStores.LiveOne(LdImm(1), {A_ATOM, X_ATOM});
    } else {
      LostStores.LivePair(LdxMem(a), LdImm(1), RetK(0), {A_ATOM, X_ATOM});
      LoadReads(a);
    }
  }

  lemma {:induction false} LoadReads(r: Reg)
    ensures Uses(LdxMem(r)) == {r as Atom} && Def(LdxMem(r)) == X_ATOM && CountedUses(RetK(0)) == {}
  {
  }

  lemma {:induction false} NoFaultFeeds(ss: seq<Stmt>, T: set<Atom>)
    requires forall i {:trigger ss[i]} :: 0 <= i < |ss| ==> !MayFault(ss[i])
    ensures FaultsFeed(ss, T)
  {
    hide MayFault;
    if |ss| > 0 {
      forall i | 0 <= i < |ss[1..]| ensures !MayFault(ss[1..][i]) { assert ss[1..][i] == ss[i+1]; }
      NoFaultFeeds(ss[1..], T);
    }
  }

  lemma {:induction false} PreparedFeeds(a: Atom)
    ensures FaultsFeed(First(a), {A_ATOM}) && FaultsFeed(Prepare(a), {A_ATOM}) && FaultsFeed(Compare(a), {A_ATOM})
  {
    NoFaultFeeds(First(a), {A_ATOM});
    NoFaultFeeds(Prepare(a), {A_ATOM});
    NoFaultFeeds(Compare(a), {A_ATOM});
  }

  lemma {:induction false} FirstRun(a: Atom, st: State, p: Packet)
    ensures var e := Exec(First(a), st, p); e.Some? && e.value[A_ATOM] == 1 && e.value[a] == if a == A_ATOM then 1 else 0
  {
    hide Exec, LostStores.Keep;
    if a != A_ATOM { SetRun(0, a, 1, st, p); } else { ExecOne(LdImm(1), st, p); }
  }

  lemma {:induction false} PrepareRun(a: Atom, st: State, p: Packet)
    ensures var e := Exec(Prepare(a), st, p); e.Some? && e.value[A_ATOM] != 9 && e.value[a] == if a == A_ATOM then 0 else 7
  {
    hide Exec, LostStores.Keep;
    if a != A_ATOM { SetRun(7, a, 2, st, p); } else { ExecOne(LdImm(0), st, p); }
  }

  lemma {:induction false} CompareRun(a: Atom, st: State, p: Packet)
    ensures var e := Exec(Compare(a), st, p); e.Some? && e.value[A_ATOM] == 1 && e.value[X_ATOM] == st[a]
  {
    if a == X_ATOM {
      ExecOne(LdImm(1), st, p);
    } else {
      var s := Compare(a)[0];
      LostStores.ExecHead(Compare(a), st, p);
      assert Compare(a)[1..] == [LdImm(1)];
      ExecOne(LdImm(1), st[X_ATOM := st[a]], p);
    }
  }

  // The edges a pull of the third block leaves.
  predicate PulledEdges(g: Graph, g2: Graph) {
    Jumps(g) && SameBlocks(g, g2) && g2[0].jt == g2[1].jt == g2[2].jt == 3 && g2[0].jf == 2 && g2[2].jf == 1 && g2[1].jf == 4
  }

  /** Pulled up before the block that sets a, the comparison comes out the other way. */
  lemma {:induction false} PreparedLost(a: Atom, g2: Graph, st: State, p: Packet)
    requires PulledEdges(Prepared(a), g2) && Closed(g2)
    ensures Closed(Prepared(a))
    ensures Run(Prepared(a), 0, st, p, 4) == Return(if a == A_ATOM then 1 else 0)
    ensures Run(g2, 0, st, p, 4) == Return(if a == A_ATOM then 0 else 1)
  {
    hide Exec, First, Prepare, Compare;
    var g := Prepared(a);
    ThreeSuccs(g);
    FirstRun(a, st, p);
    var m := Exec(First(a), st, p).value;
    PrepareRun(a, m, p);
    CompareRun(a, m, p);
    var x, y := Exec(Prepare(a), m, p).value, Exec(Compare(a), m, p).value;
    CompareRun(a, x, p);
    PrepareRun(a, y, p);
    var x2, y2 := Exec(Compare(a), x, p).value, Exec(Prepare(a), y, p).value;
    NothingLeft(x2, p);
    NothingLeft(y, p);
    NothingLeft(y2, p);
    assert Run(g, if a == A_ATOM then 3 else 4, x2, p, 1) == Return(if a == A_ATOM then 1 else 0);
    assert Run(g, 2, x, p, 2) == Return(if a == A_ATOM then 1 else 0);
    assert Run(g, 1, m, p, 3) == Return(if a == A_ATOM then 1 else 0);
    if a == A_ATOM {
      assert Run(g2, 4, y2, p, 1) == Return(0);
      assert Run(g2, 1, y, p, 2) == Return(0);
    } else {
      assert Run(g2, 3, y, p, 2) == Return(1);
    }
    assert Run(g2, 2, m, p, 3) == Return(if a == A_ATOM then 0 else 1);
  }

  // The first and the third test look at the same byte, but the third loads another one as well.
  function Hiding(): Graph {
    Three([LdAbs(B, 0)], [LdAbs(B, 1)], [LdAbs(B, 100), Tax, LdAbs(B, 0)], Jmp(Jeq, K(1)), Jmp(Jeq, K(2)), Jmp(Jgt, X))
  }

  lemma {:induction false} LoadNumbered(off: Word, val: Vals, ss2: seq<Stmt>, val2: Vals, keys: seq<Key>)
    requires ExactlyAll([LdAbs(B, off)], val, false, ss2, val2, keys)
    ensures NumOf(keys, Key(CAbs(B), off, 0)) > 0 && val2 == val[A_ATOM := NumOf(keys, Key(CAbs(B), off, 0))]
  {
    hide NumOf;
    assert [LdAbs(B, off)][1..] == [];
  }

  lemma {:induction false} ThirdNumbered(val: Vals, ss2: seq<Stmt>, val2: Vals, keys: seq<Key>)
    requires ExactlyAll([LdAbs(B, 100), Tax, LdAbs(B, 0)], val, false, ss2, val2, keys)
    ensures val2[A_ATOM] == NumOf(keys, Key(CAbs(B), 0, 0))
  {
    hide NumOf;
    assert [LdAbs(B, 100), Tax, LdAbs(B, 0)][1..] == [Tax, LdAbs(B, 0)] && [Tax, LdAbs(B, 0)][1..] == [LdAbs(B, 0)];
    var v: Vals := val[A_ATOM := NumOf(keys, Key(CAbs(B), 100, 0))];
    assert ExactlyAll([Tax, LdAbs(B, 0)], v, false, ss2[1..], val2, keys);
    var w: Vals := v[X_ATOM := v[A_ATOM]];
    assert ExactlyAll([LdAbs(B, 0)], w, false, ss2[1..][1..], val2, keys);
    LoadNumbered(0, w, ss2[1..][1..], val2, keys);
  }

  lemma {:induction false} HidingNumbers(s: Snapshot, inEdges: seq<seq<EdgeId>>, reach: set<Id>)
    requires Finished(Hiding(), s, inEdges, false, 0, reach)
    ensures Shaped(Hiding(), s, inEdges) && s.val[0][A_ATOM] == s.val[2][A_ATOM] != s.val[1][A_ATOM]
  {
    hide Distinct, Whole, ExactlyAll, Entering, EntryVals, IsReach, Numbered, Issued, OperandNumber, NumOf;
    var g := Hiding();
    ThreeEntries(g, s, inEdges, reach);
    assert DoneAt(g, s, inEdges, false, 0) && DoneAt(g, s, inEdges, false, 1) && DoneAt(g, s, inEdges, false, 2);
    LoadNumbered(0, EntryVals(g, s, inEdges, 0), s.node[0].stmts, s.val[0], s.keys);
    LoadNumbered(1, EntryVals(g, s, inEdges, 1), s.node[1].stmts, s.val[1], s.keys);
    ThirdNumbered(EntryVals(g, s, inEdges, 2), s.node[2].stmts, s.val[2], s.keys);
    OtherByte(s.keys);
  }

  lemma {:induction false} OtherByte(keys: seq<Key>)
    requires NumOf(keys, Key(CAbs(B), 1, 0)) > 0 && NumOf(keys, Key(CAbs(B), 0, 0)) > 0
    ensures NumOf(keys, Key(CAbs(B), 1, 0)) != NumOf(keys, Key(CAbs(B), 0, 0))
  {
  }

  /** Nothing is shared, and nothing read that is not set. */
  lemma {:induction false} HidingForm(P: set<Atom>)
    ensures SharesOnly(Hiding(), 0, P, false) && Leveled(Hiding(), [3, 2, 1, 0, 0])
  {
    hide NodeReads, Leads, SetElsewhere, Defs;
    ThreeSuccs(Hiding());
    HidingReads();
  }

  lemma {:induction false} HidingReads()
    ensures forall b :: 0 <= b < 5 ==> NodeReads(Hiding()[b]) == {}
  {
    hide LiveIn, Uses, Def;
    var g := Hiding();
    LostStores.NoUses();
    ByteReads(0);
    ByteReads(1);
    ByteReads(100);
    LostStores.LiveNone(RetK(0), {});
    LostStores.LiveOne(LdAbs(B, 0), {A_ATOM});
    LostStores.LiveOne(LdAbs(B, 1), {A_ATOM});
    var t := [LdAbs(B, 100), Tax] + [LdAbs(B, 0)];
    assert g[2].stmts == t;
    LiveInConcat([LdAbs(B, 100), Tax], [LdAbs(B, 0)], RetK(0), {A_ATOM, X_ATOM});
    LostStores.LiveOne(LdAbs(B, 0), {A_ATOM, X_ATOM});
    LostStores.LivePair(LdAbs(B, 100), Tax, RetK(0), {X_ATOM});
    MoveReads();
    assert LiveIn([LdAbs(B, 0)], RetK(0), {A_ATOM, X_ATOM}) == {X_ATOM};
    assert LiveIn(t, RetK(0), {A_ATOM, X_ATOM}) == {};
  }

  lemma {:induction false} ByteReads(off: Word)
    ensures Uses(LdAbs(B, off)) == {} && Def(LdAbs(B, off)) == A_ATOM
  {
  }

  /** The second test accepts the packet; the third, pulled up before it, faults. */
  lemma {:induction false} HidingLost(g2: Graph, st: State)
    requires PulledEdges(Hiding(), g2) && Closed(g2)
    ensures Closed(Hiding())
    ensures Run(Hiding(), 0, st, Packet([0, 2], 2), 4) == Return(1)
    ensures Run(g2, 0, st, Packet([0, 2], 2), 4) == Fault
  {
    hide Exec;
    var g, p := Hiding(), Packet([0, 2], 2);
    ThreeSuccs(g);
    ByteRun(0, st, p);
    var m: State := st[A_ATOM := 0];
    ByteRun(1, m, p);
    var x: State := m[A_ATOM := 2];
    NothingLeft(x, p);
    FarByte(m, p);
    assert Run(g, 3, x, p, 2) == Return(1);
    assert Run(g, 1, m, p, 3) == Return(1);
    assert Run(g2, 2, m, p, 3) == Fault;
  }

  lemma {:induction false} ByteRun(off: Word, st: State, p: Packet)
    requires off < |p.bytes|
    ensures Exec([LdAbs(B, off)], st, p) == Some(st[A_ATOM := p.bytes[off]])
  {
    ExecOne(LdAbs(B, off), st, p);
  }

  lemma {:induction false} FarByte(st: State, p: Packet)
    requires |p.bytes| <= 100
    ensures Exec([LdAbs(B, 100), Tax, LdAbs(B, 0)], st, p) == None
  {
  }

  // Loads at two words nobody has set.
  function Loose(): Graph {
    Three([LdxMem(0), LdInd(B, 0)], [LdImm(2)], [LdxMem(1), LdInd(B, 0)], Jmp(Jeq, K(9)), Jmp(Jeq, K(2)), Jmp(Jeq, K(9)))
  }

  lemma {:induction false} LooseNumbered(r: Reg, val: Vals, ss2: seq<Stmt>, val2: Vals, keys: seq<Key>)
    requires ExactlyAll([LdxMem(r), LdInd(B, 0)], val, false, ss2, val2, keys) && val[r] == 0
    ensures NumOf(keys, Key(CInd(B), 0, 0)) > 0 && val2 == val[X_ATOM := 0][A_ATOM := NumOf(keys, Key(CInd(B), 0, 0))]
  {
    hide NumOf;
    assert [LdxMem(r), LdInd(B, 0)][1..] == [LdInd(B, 0)] && [LdInd(B, 0)][1..] == [];
    assert ExactlyAll([LdInd(B, 0)], val[X_ATOM := 0], false, ss2[1..], val2, keys);
  }

  lemma {:induction false} TwoNumbered(val: Vals, ss2: seq<Stmt>, val2: Vals, keys: seq<Key>)
    requires ExactlyAll([LdImm(2)], val, false, ss2, val2, keys)
    ensures NumOf(keys, ConstKey(2)) > 0 && val2 == val[A_ATOM := NumOf(keys, ConstKey(2))]
  {
    hide NumOf;
    assert [LdImm(2)][1..] == [];
  }

  lemma {:induction false} LooseNumbers(s: Snapshot, inEdges: seq<seq<EdgeId>>, reach: set<Id>)
    requires Finished(Loose(), s, inEdges, false, 0, reach)
    ensures Shaped(Loose(), s, inEdges) && s.val[0][A_ATOM] == s.val[2][A_ATOM] != s.val[1][A_ATOM]
  {
    hide Distinct, Whole, ExactlyAll, Entering, EntryVals, IsReach, Numbered, Issued, OperandNumber, NumOf;
    var g := Loose();
    ThreeEntries(g, s, inEdges, reach);
    assert DoneAt(g, s, inEdges, false, 0) && DoneAt(g, s, inEdges, false, 1) && DoneAt(g, s, inEdges, false, 2);
    LooseNumbered(0, EntryVals(g, s, inEdges, 0), s.node[0].stmts, s.val[0], s.keys);
    TwoNumbered(EntryVals(g, s, inEdges, 1), s.node[1].stmts, s.val[1], s.keys);
    LooseNumbered(1, EntryVals(g, s, inEdges, 2), s.node[2].stmts, s.val[2], s.keys);
    ConstOther(s.keys);
  }

  lemma {:induction false} ConstOther(keys: seq<Key>)
    requires NumOf(keys, ConstKey(2)) > 0 && NumOf(keys, Key(CInd(B), 0, 0)) > 0
    ensures NumOf(keys, ConstKey(2)) != NumOf(keys, Key(CInd(B), 0, 0))
  {
  }

  /** Nothing is shared, and faults show. */
  lemma {:induction false} LooseForm(P: set<Atom>)
    ensures SharesOnly(Loose(), 0, P, true) && AllFeed(Loose()) && Leveled(Loose(), [3, 2, 1, 0, 0])
  {
    hide NodeReads, Leads, Defs, FaultsFeed;
    ThreeSuccs(Loose());
    LooseReads();
    LooseFeeds();
    forall a: Atom | a < 2 ensures !SetElsewhere(Loose(), 0, a) {
      LooseDefs();
    }
  }

  lemma {:induction false} LooseReads()
    ensures NodeReads(Loose()[1]) == {} && NodeReads(Loose()[2]) == {1} && NodeReads(Loose()[3]) == {} && NodeReads(Loose()[4]) == {}
  {
    hide LiveIn, Uses, Def;
    ImmReads(2);
    LoadReads(1);
    IndReads();
    LostStores.LiveNone(RetK(0), {});
    LostStores.LiveOne(LdImm(2), {A_ATOM});
    LostStores.LivePair(LdxMem(1), LdInd(B, 0), RetK(0), {A_ATOM});
  }

  lemma {:induction false} IndReads()
    ensures Uses(LdInd(B, 0)) == {X_ATOM} && Def(LdInd(B, 0)) == A_ATOM
  {
  }

  lemma {:induction false} LooseDefs()
    ensures forall b :: 0 < b < 5 ==> Defs(Loose()[b].stmts) <= {A_ATOM, X_ATOM}
  {
    hide Def;
    LoadReads(1);
    IndReads();
    ImmReads(2);
    LostStores.DefsNone();
    DefsOne(LdImm(2));
    LostStores.DefsTwo(LdxMem(1), LdInd(B, 0));
  }

  lemma {:induction false} LooseFeeds()
    ensures forall b :: 0 <= b < 3 ==> FaultsFeed(Loose()[b].stmts, {A_ATOM})
  {
    IndFeeds(0);
    IndFeeds(1);
    NoFaultFeeds([LdImm(2)], {A_ATOM});
  }

  lemma {:induction false} IndFeeds(r: Reg)
    ensures FaultsFeed([LdxMem(r), LdInd(B, 0)], {A_ATOM})
  {
    assert [LdxMem(r), LdInd(B, 0)][1..] == [LdInd(B, 0)] && [LdInd(B, 0)][1..] == [];
    assert FaultsFeed([], {A_ATOM}) && Feeds([], {A_ATOM}) == {A_ATOM};
    assert FaultsFeed([LdInd(B, 0)], {A_ATOM});
    assert !MayFault(LdxMem(r));
  }

  /** The second test accepts the packet; the third, which loads at the other word, faults. */
  lemma {:induction false} LooseLost(g2: Graph, st: State)
    requires PulledEdges(Loose(), g2) && Closed(g2) && st[0] == 0 && st[1] == 5
    ensures Closed(Loose())
    ensures Run(Loose(), 0, st, Packet([0], 1), 4) == Return(1)
    ensures Run(g2, 0, st, Packet([0], 1), 4) == Fault
  {
    hide Exec;
    var g, p := Loose(), Packet([0], 1);
    ThreeSuccs(g);
    WordRun(0, st, p);
    var m: State := st[X_ATOM := 0][A_ATOM := 0];
    ExecOne(LdImm(2), m, p);
    var x: State := m[A_ATOM := 2];
    NothingLeft(x, p);
    WordRun(1, m, p);
    assert Run(g, 3, x, p, 2) == Return(1);
    assert Run(g, 1, m, p, 3) == Return(1);
    assert Run(g2, 2, m, p, 3) == Fault;
  }

  lemma {:induction false} WordRun(r: Reg, st: State, p: Packet)
    requires |p.bytes| > 0 && st[r] < 6 && |p.bytes| <= 5
    ensures Exec([LdxMem(r), LdInd(B, 0)], st, p) ==
      if st[r] < |p.bytes| then Some(st[X_ATOM := st[r]][A_ATOM := p.bytes[st[r]]]) else None
  {
    LostStores.ExecHead([LdxMem(r), LdInd(B, 0)], st, p);
    assert [LdxMem(r), LdInd(B, 0)][1..] == [LdInd(B, 0)];
    ExecOne(LdInd(B, 0), st[X_ATOM := st[r]], p);
  }
}
