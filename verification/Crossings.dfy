/** Which atoms may cross blocks when edges are moved: those no block between the root and the reader sets. */
module Crossings {
  import opened Words
  import opened Bpf
  import opened Blocks
  import opened Reach
  import opened Dominance
  import opened Dominators
  import opened InEdges
  import opened Liveness
  import opened Values
  import opened Treatments
  import opened Walks
  import opened ValueFlow
  import opened ValuePass
  import opened ValueSound
  import opened DeadStores
  import opened Setters
  import opened GeneratorForm
  import EdgeFold
  import LostStores

  // A block before c other than the root, on a path from there, sets a.
  ghost predicate SetBetween(g: Graph, root: Id, a: Atom, c: Id)
    requires Closed(g) && root < |g|
  {
    exists b: Id, side, sides :: b != root && SetOn(g, root, a, b, side, sides, c)
  }

  /** Unless unset atoms may be read, the root reads nothing, and the other blocks only what the root sets. Of what blocks read,
      those on the way from the root set no atoms but those of P. */
  ghost predicate CrossesOnly(g: Graph, root: Id, P: set<Atom>, unset: bool) {
    && Closed(g) && root < |g| && (unset || SelfContained(g[root]))
    && forall c: Id, a: Atom {:trigger SetBetween(g, root, a, c)} ::
         c < |g| && c != root && Leads(g, root, c) && a in NodeReads(g[c]) ==>
           (unset || a in Defs(g[root].stmts)) && (SetBetween(g, root, a, c) ==> a in P)
  }

  // The atoms that come to each block as the root leaves them.
  ghost function FromRoot(g: Graph, root: Id): (r: seq<set<Atom>>)
    requires Closed(g) && root < |g|
    ensures |r| == |g|
    ensures forall b: Id, a: Atom {:trigger a in r[b]} :: b < |g| ==> (a in r[b] <==> !SetBetween(g, root, a, b))
  {
    seq(|g|, b requires 0 <= b < |g| => set a: Atom | !SetBetween(g, root, a, b))
  }

  lemma {:induction false} SetsDefs(ss: seq<Stmt>, S: set<Atom>)
    requires Sets(ss, S)
    ensures exists a :: a in S && a in Defs(ss)
  {
    hide Def;
    var i :| 0 <= i < |ss| && !ss[i].Nop? && Def(ss[i]) in S;
    if i > 0 {
      assert ss[1..][i-1] == ss[i];
      assert Sets(ss[1..], S);
      SetsDefs(ss[1..], S);
    }
  }

  lemma {:induction false} BetweenHere(g: Graph, root: Id, a: Atom, b: Id, side: bool)
    requires Closed(g) && root < |g| && b < |g| && b != root && Leads(g, root, b) && a in Defs(g[b].stmts) && g[b].s.Jmp?
    ensures SetBetween(g, root, a, g[b].Succ(side))
  {
    hide Leads, Defs;
    assert SetOn(g, root, a, b, side, [], g[b].Succ(side));
  }

  lemma {:induction false} BetweenOn(g: Graph, root: Id, a: Atom, c: Id, side: bool)
    requires Closed(g) && root < |g| && c < |g| && g[c].s.Jmp? && SetBetween(g, root, a, c)
    ensures SetBetween(g, root, a, g[c].Succ(side))
  {
    hide Leads, Defs, Follows;
    var b: Id, s, sides :| b != root && SetOn(g, root, a, b, s, sides, c);
    FollowsEdge(g, c, side);
    FollowsOn(g, g[b].Succ(s), sides, c, [side], g[c].Succ(side));
    assert SetOn(g, root, a, b, s, sides + [side], g[c].Succ(side));
  }

  /** What comes from the root goes on coming to blocks below until one sets it. */
  lemma {:induction false} FromRootCarried(g: Graph, root: Id, reach: set<Id>)
    requires Closed(g) && IsReach(g, root, reach)
    ensures Carried(g, root, reach, FromRoot(g, root))
  {
    hide IsReach, Sets, SetBetween, Leads, Defs;
    RootIn(g, root, reach);
    var kept := FromRoot(g, root);
    forall b, side | b in reach && b != root && b < |g| && g[b].s.Jmp? && 0 <= g[b].Succ(side) < |g|
      ensures kept[g[b].Succ(side)] <= kept[b] && !Sets(g[b].stmts, kept[g[b].Succ(side)])
    {
      var c := g[b].Succ(side);
      ReachLeads(g, root, reach, b);
      forall a | a in kept[c] ensures a in kept[b] {
        if SetBetween(g, root, a, b) { BetweenOn(g, root, a, b, side); }
      }
      if Sets(g[b].stmts, kept[c]) {
        SetsDefs(g[b].stmts, kept[c]);
        var a :| a in kept[c] && a in Defs(g[b].stmts);
        BetweenHere(g, root, a, b, side);
      }
    }
  }

  /** If nothing crosses, blocks rely on what the root leaves; if nothing unset is read either, the graph is in generator form. */
  lemma {:induction false} NoneCrosses(g: Graph, root: Id, reach: set<Id>, unset: bool)
    requires CrossesOnly(g, root, {}, unset) && IsReach(g, root, reach)
    ensures Relies(g, root, reach, FromRoot(g, root)) && (!unset ==> Generated(g, root, reach, FromRoot(g, root)))
  {
    hide NodeReads, Carried, SetBetween, Leads, Defs;
    RootIn(g, root, reach);
    FromRootCarried(g, root, reach);
    var kept := FromRoot(g, root);
    forall b | b in reach && b != root ensures b < |g| && NodeReads(g[b]) <= kept[b] {
      ReachClosed(g, root, reach, b);
      ReachLeads(g, root, reach, b);
      forall a | a in NodeReads(g[b]) ensures a in kept[b] {
        assert !SetBetween(g, root, a, b);
      }
    }
  }

  lemma {:induction false} ReachClosed(g: Graph, root: Id, reach: set<Id>, b: Id)
    requires IsReach(g, root, reach) && b in reach
    ensures b < |g|
  {
  }

  /** Of statements that read nothing from outside, every atom they set gets a number. */
  lemma {:induction false} DefsNumbered(ss: seq<Stmt>, val: Vals, alter: bool, ss2: seq<Stmt>, val2: Vals, keys: seq<Key>, have: set<Atom>, a: Atom)
    requires ExactlyAll(ss, val, alter, ss2, val2, keys) && LiveIn(ss, RetK(0), {}) <= have
    requires (forall x: Atom :: x in have ==> val[x] != 0) && (a in have || a in Defs(ss))
    ensures val2[a] != 0
    decreases |ss|
  {
    hide PlanFor, Served, Def, Uses, Carry;
    if |ss| > 0 {
      var s, s2 := ss[0], ss2[0];
      var mid := Carry(PlanFor(s, val, alter, keys), s, val, alter, keys).1;
      assert Exactly(s, val, alter, s2, mid, keys);
      if s.Nop? {
        NopCarries(val, alter, s2, mid, keys);
        DefsNumbered(ss[1..], mid, alter, ss2[1..], val2, keys, have, a);
      } else {
        OneReads(s, val, alter, s2, mid, keys, have);
        DefsNumbered(ss[1..], mid, alter, ss2[1..], val2, keys, have + {Def(s)}, a);
      }
    }
  }

  /** A block reached from the root is entered by an edge. */
  lemma {:induction false} HasEntry(g: Graph, root: Id, reach: set<Id>, inEdges: seq<seq<EdgeId>>, b: Id)
    requires Closed(g) && IsReach(g, root, reach) && Entering(g, reach, inEdges) && b in reach && b != root
    ensures b < |g| == |inEdges| && |inEdges[b]| > 0
  {
    var T := reach - {b};
    assert root in T && !(reach <= T);
    assert !ClosedUnder(g, T);
    var m :| m in T && !(m < |g| && SuccSet(g, m) <= T);
    assert g[m].s.Jmp? && (g[m].jt == b || g[m].jf == b);
    var e := EdgeOf(g, m, g[m].jt == b);
    assert EntersAt(g, reach, inEdges, b, e);
  }

  /** What comes from the root has, on entry to every block, the number it has at the root's end. */
  lemma {:induction false} RootNumber(g: Graph, lv: Blocks.Levels, s: Snapshot, inEdges: seq<seq<EdgeId>>, root: Id, reach: set<Id>, b: Id, a: Atom)
    requires Finished(g, s, inEdges, false, root, reach) && Leveled(g, lv) && b in reach && b != root
    requires a in FromRoot(g, root)[b]
    ensures b < |g| && root < |g| && Shaped(g, s, inEdges) && EntryVals(g, s, inEdges, b)[a] == s.val[root][a]
    decreases if lv[b] <= lv[root] then lv[root] - lv[b] else 0
  {
    hide Numbered, Distinct, Whole, OperandNumber, Issued, ExactlyAll, SetBetween, IsReach, Leads, Sets, DoneAt;
    TreatedBlock(g, s, inEdges, false, root, reach, b);
    TreatedBlock(g, s, inEdges, false, root, reach, root) by { RootIn(g, root, reach); }
    HasEntry(g, root, reach, inEdges, b);
    FromRootCarried(g, root, reach);
    var nums := PredNumbers(g, inEdges[b], s.val, a);
    forall i | 0 <= i < |inEdges[b]| ensures nums[i] == s.val[root][a] {
      var e := inEdges[b][i];
      assert EntersAt(g, reach, inEdges, b, e);
      var m := Tail(g, e);
      assert nums[i] == s.val[m][a];
      if m != root {
        RootOnTop(g, lv, root, reach, m);
        CarriedBy(g, root, reach, FromRoot(g, root), e);
        RootNumber(g, lv, s, inEdges, root, reach, m, a);
        DefsSet(g[m].stmts, FromRoot(g, root)[b], a);
        SameNumber(g, s, inEdges, root, reach, m, a);
      }
    }
    assert AllAre(nums, s.val[root][a]);
    assert EntryVals(g, s, inEdges, b)[a] == Common(nums);
  }

  lemma {:induction false} RootIn(g: Graph, root: Id, reach: set<Id>)
    requires IsReach(g, root, reach)
    ensures root in reach && root < |g|
  {
  }

  lemma {:induction false} DefsSet(ss: seq<Stmt>, S: set<Atom>, a: Atom)
    requires !Sets(ss, S) && a in S
    ensures a !in Defs(ss)
  {
    hide Def;
    if |ss| > 0 {
      forall i | 0 <= i < |ss[1..]| ensures ss[1..][i].Nop? || Def(ss[1..][i]) !in S {
        assert ss[1..][i] == ss[i+1];
      }
      DefsSet(ss[1..], S, a);
    }
  }

  lemma {:induction false} SameNumber(g: Graph, s: Snapshot, inEdges: seq<seq<EdgeId>>, root: Id, reach: set<Id>, m: Id, a: Atom)
    requires Finished(g, s, inEdges, false, root, reach) && m in reach && m < |g| && a !in Defs(g[m].stmts)
    ensures Shaped(g, s, inEdges) && s.val[m][a] == EntryVals(g, s, inEdges, m)[a]
  {
    hide ExactlyAll, Numbered, OperandNumber, Issued;
    TreatedBlock(g, s, inEdges, false, root, reach, m);
    OnlyDefs(g[m].stmts, EntryVals(g, s, inEdges, m), false, s.node[m].stmts, s.val[m], s.keys, a);
  }

  /** If nothing crosses, no block reads an atom without a number. */
  lemma {:induction false} NoneCrossesKnown(g: Graph, lv: Blocks.Levels, s: Snapshot, inEdges: seq<seq<EdgeId>>, root: Id, reach: set<Id>)
    requires Finished(g, s, inEdges, false, root, reach) && Leveled(g, lv) && CrossesOnly(g, root, {}, false)
    ensures AllKnown(g, s, inEdges, reach)
  {
    hide NodeReads, Carried, Leveled, Entering, EntryVals, DoneAt, IsReach, Distinct, Whole;
    NoneCrosses(g, root, reach, false);
    RootIn(g, root, reach);
    TreatedBlock(g, s, inEdges, false, root, reach, root);
    forall b | b in reach ensures b < |g| && NodeKnown(g, s, inEdges, b) {
      TreatedBlock(g, s, inEdges, false, root, reach, b);
      forall a | a in NodeReads(g[b]) ensures EntryVals(g, s, inEdges, b)[a] != 0 {
        if b != root {
          ReadSet(g, root, reach, b, a);
          RootNumber(g, lv, s, inEdges, root, reach, b, a);
          RootNumbered(g, s, inEdges, root, reach, a);
        }
      }
    }
  }

  lemma {:induction false} ReadSet(g: Graph, root: Id, reach: set<Id>, b: Id, a: Atom)
    requires CrossesOnly(g, root, {}, false) && IsReach(g, root, reach) && b in reach && b < |g| && b != root && a in NodeReads(g[b])
    ensures a in Defs(g[root].stmts) && !SetBetween(g, root, a, b)
  {
    hide NodeReads, SetBetween, Leads, Defs;
    ReachLeads(g, root, reach, b);
    assert SetBetween(g, root, a, b) ==> false;
  }

  lemma {:induction false} RootNumbered(g: Graph, s: Snapshot, inEdges: seq<seq<EdgeId>>, root: Id, reach: set<Id>, a: Atom)
    requires Finished(g, s, inEdges, false, root, reach) && root < |g| && SelfContained(g[root]) && a in Defs(g[root].stmts)
    ensures Shaped(g, s, inEdges) && s.val[root][a] != 0
  {
    hide ExactlyAll, Numbered, OperandNumber, Issued, Defs, LiveIn;
    RootIn(g, root, reach);
    TreatedBlock(g, s, inEdges, false, root, reach, root);
    LiveMore(g[root].stmts, {}, BranchUses(g[root].s));
    DefsNumbered(g[root].stmts, EntryVals(g, s, inEdges, root), false, s.node[root].stmts, s.val[root], s.keys, {}, a);
  }

  // A block other than the root sets a.
  ghost predicate SetElsewhere(g: Graph, root: Id, a: Atom)
    requires Closed(g) && root < |g|
  {
    exists b: Id {:trigger Leads(g, root, b)} :: b < |g| && b != root && Leads(g, root, b) && a in Defs(g[b].stmts)
  }

  /** The same when blocks may change places: of what blocks other than the root read, such blocks set no atoms but those of P. */
  ghost predicate SharesOnly(g: Graph, root: Id, P: set<Atom>, unset: bool) {
    && Closed(g) && root < |g| && (unset || SelfContained(g[root]))
    && forall c: Id, a: Atom {:trigger a in NodeReads(g[c])} ::
         c < |g| && c != root && Leads(g, root, c) && a in NodeReads(g[c]) ==>
           (unset || a in Defs(g[root].stmts)) && (SetElsewhere(g, root, a) ==> a in P)
  }

  lemma {:induction false} SharesCrosses(g: Graph, root: Id, P: set<Atom>, unset: bool)
    requires SharesOnly(g, root, P, unset)
    ensures CrossesOnly(g, root, P, unset)
  {
    hide NodeReads, Leads, Defs, Follows;
    forall c: Id, a: Atom | c < |g| && c != root && Leads(g, root, c) && a in NodeReads(g[c])
      ensures (unset || a in Defs(g[root].stmts)) && (SetBetween(g, root, a, c) ==> a in P)
    {
      if SetBetween(g, root, a, c) {
        var b: Id, side, sides :| b != root && SetOn(g, root, a, b, side, sides, c);
        assert SetElsewhere(g, root, a);
      }
    }
  }

  lemma {:induction false} SharesMore(g: Graph, root: Id, P: set<Atom>, unset: bool)
    requires SharesOnly(g, root, P, false)
    ensures SharesOnly(g, root, P, unset)
  {
    hide NodeReads, Leads, Defs, SetElsewhere;
  }

  // The atoms only the root sets, for every block.
  ghost function RootAlone(g: Graph, root: Id): (r: seq<set<Atom>>)
    requires Closed(g) && root < |g|
    ensures |r| == |g| && forall b: Id, a: Atom {:trigger a in r[b]} :: b < |g| ==> (a in r[b] <==> !SetElsewhere(g, root, a))
  {
    seq(|g|, b requires 0 <= b < |g| => set a: Atom | !SetElsewhere(g, root, a))
  }

  /** They come to every block, wherever edges lead. */
  lemma {:induction false} AloneCarried(g: Graph, g2: Graph, root: Id, reach: set<Id>)
    requires Closed(g) && IsReach(g, root, reach) && root < |g| && SameBlocks(g, g2)
    ensures Carried(g2, root, reach, RootAlone(g, root))
  {
    hide IsReach, Sets, SetElsewhere, Leads, Defs;
    var kept := RootAlone(g, root);
    forall b, side | b in reach && b != root && b < |g2| && g2[b].s.Jmp? && 0 <= g2[b].Succ(side) < |g2|
      ensures kept[g2[b].Succ(side)] <= kept[b] && !Sets(g2[b].stmts, kept[g2[b].Succ(side)])
    {
      var c := g2[b].Succ(side);
      ReachLeads(g, root, reach, b);
      forall a | a in kept[c] ensures a in kept[b] {
      }
      if Sets(g[b].stmts, kept[c]) {
        SetsDefs(g[b].stmts, kept[c]);
        var a :| a in kept[c] && a in Defs(g[b].stmts);
        ElsewhereHere(g, root, a, b);
      }
    }
  }

  lemma {:induction false} ElsewhereHere(g: Graph, root: Id, a: Atom, b: Id)
    requires Closed(g) && root < |g| && b < |g| && b != root && Leads(g, root, b) && a in Defs(g[b].stmts)
    ensures SetElsewhere(g, root, a)
  {
    hide Leads, Defs;
  }

  /** If nothing is shared, the graph is in generator form. */
  lemma {:induction false} NoneShared(g: Graph, root: Id, reach: set<Id>)
    requires SharesOnly(g, root, {}, false) && IsReach(g, root, reach)
    ensures Generated(g, root, reach, RootAlone(g, root))
  {
    hide NodeReads, Carried, SetElsewhere, Leads, Defs;
    RootIn(g, root, reach);
    SameAsSelf(g);
    AloneCarried(g, g, root, reach);
    var kept := RootAlone(g, root);
    forall b | b in reach && b != root ensures b < |g| && NodeReads(g[b]) <= kept[b] {
      ReachClosed(g, root, reach, b);
      ReachLeads(g, root, reach, b);
      forall a | a in NodeReads(g[b]) ensures a in kept[b] {
        assert SetElsewhere(g, root, a) ==> a in {};
      }
    }
  }

  // A block that sets a to 1; one that sets it to 7; one that fetches it.
  function First(a: Atom): seq<Stmt> { if a == A_ATOM then [LdImm(1)] else [LdImm(0), LostStores.Keep(a), LdImm(1)] }

  function Second(a: Atom): seq<Stmt> { if a == A_ATOM then [LdImm(7)] else [LdImm(7), LostStores.Keep(a), LdImm(1)] }

  function Third(a: Atom): seq<Stmt> { if a == A_ATOM then [] else if a == X_ATOM then [Txa] else [LdMem(a)] }

  // The second block branches as the first did, or, if a is A, always to the third, which tests a.
  function Crossing(a: Atom): Graph {
    [ Node(First(a), Jmp(Jeq, K(1)), 1, 3),
      Node(Second(a), if a == A_ATOM then Jmp(Jgt, K(0)) else Jmp(Jeq, K(1)), 2, if a == A_ATOM then 2 else 3),
      Node(Third(a), Jmp(Jeq, K(7)), 4, 3),
      Node([], RetK(0), NIL, NIL),
      Node([], RetK(1), NIL, NIL) ]
  }

  ghost const ALL_FIVE: set<Id> := {0, 1, 2, 3, 4}

  lemma {:induction false} CrossingLevels(a: Atom)
    ensures Leveled(Crossing(a), [3, 2, 1, 0, 0])
  {
    hide First, Second, Third;
  }

  lemma {:induction false} CrossingSuccs(a: Atom)
    ensures SuccSet(Crossing(a), 0) == {1, 3} && 2 in SuccSet(Crossing(a), 1) && SuccSet(Crossing(a), 1) <= {2, 3}
    ensures SuccSet(Crossing(a), 2) == {4, 3} && SuccSet(Crossing(a), 3) == {} && SuccSet(Crossing(a), 4) == {}
  {
    hide First, Second, Third;
  }

  lemma {:induction false} CrossingReach(a: Atom, reach: set<Id>)
    requires IsReach(Crossing(a), 0, reach)
    ensures reach == ALL_FIVE
  {
    hide First, Second, Third, SuccSet;
    var g := Crossing(a);
    CrossingSuccs(a);
    assert ClosedUnder(g, ALL_FIVE);
    assert {1, 3} <= reach && SuccSet(g, 1) <= reach && SuccSet(g, 2) <= reach;
  }

  /** The third block is entered from the second alone. */
  lemma {:induction false} ThirdEdges(a: Atom, inEdges: seq<seq<EdgeId>>, reach: set<Id>)
    requires Entering(Crossing(a), reach, inEdges) && reach == ALL_FIVE
    ensures |inEdges[2]| > 0 && forall i :: 0 <= i < |inEdges[2]| ==> inEdges[2][i] < 10 && Tail(Crossing(a), inEdges[2][i]) == 1
  {
    hide First, Second, Third;
    var g := Crossing(a);
    assert EntersAt(g, reach, inEdges, 2, EdgeOf(g, 1, true));
    forall i | 0 <= i < |inEdges[2]| ensures inEdges[2][i] < 10 && Tail(g, inEdges[2][i]) == 1 {
      assert EntersAt(g, reach, inEdges, 2, inEdges[2][i]);
    }
  }

  /** The third block starts with the numbers the second leaves. */
  lemma {:induction false} ThirdEntry(a: Atom, s: Snapshot, inEdges: seq<seq<EdgeId>>, reach: set<Id>)
    requires Finished(Crossing(a), s, inEdges, false, 0, reach)
    ensures Shaped(Crossing(a), s, inEdges) && EntryVals(Crossing(a), s, inEdges, 2) == s.val[1]
  {
    hide DoneAt, Distinct, Whole, First, Second, Third, Entering;
    var g := Crossing(a);
    CrossingReach(a, reach);
    ThirdEdges(a, inEdges, reach);
    forall x: Atom ensures EntryVals(g, s, inEdges, 2)[x] == s.val[1][x] {
      assert AllAre(PredNumbers(g, inEdges[2], s.val, x), s.val[1][x]);
    }
  }

  lemma {:induction false} SetTerms(k: Word, a: Atom, sym: Sym)
    requires a != A_ATOM
    ensures SymExec([LdImm(k), LostStores.Keep(a), LdImm(1)], sym) == sym[A_ATOM := Const(k)][a := Const(k)][A_ATOM := Const(1)]
  {
    LostStores.KeepSets(a);
    var ss := [LdImm(k), LostStores.Keep(a), LdImm(1)];
    assert ss[1..] == [LostStores.Keep(a), LdImm(1)] && ss[1..][1..] == [LdImm(1)] && [LdImm(1)][1..] == [];
    var s1: Sym := sym[A_ATOM := Const(k)];
    var s2: Sym := s1[a := Const(k)];
    assert SymStep(LdImm(k), sym) == s1 && SymStep(LostStores.Keep(a), s1) == s2;
    assert SymExec(ss[1..], s1) == SymExec([LdImm(1)], s2) == SymExec([], s2[A_ATOM := Const(1)]);
  }

  lemma {:induction false} SecondTerms(a: Atom, sym: Sym)
    ensures SymExec(First(a), sym)[A_ATOM] == Const(1) && SymExec(Second(a), sym)[A_ATOM] == Const(if a == A_ATOM then 7 else 1)
    ensures SymExec(Second(a), sym)[a] == Const(7) && SymExec(Third(a), sym)[A_ATOM] == sym[a]
  {
    if a != A_ATOM {
      SetTerms(0, a, sym);
      SetTerms(7, a, sym);
      assert Third(a)[1..] == [];
    } else {
      assert [LdImm(1)][1..] == [] && [LdImm(7)][1..] == [];
    }
  }

  /** The numbers of A that a pass gives: of 1, of 1 or 7, and of 7. */
  lemma {:induction false} CrossingNumbers(a: Atom, s: Snapshot, inEdges: seq<seq<EdgeId>>, reach: set<Id>)
    requires Finished(Crossing(a), s, inEdges, false, 0, reach) && ConstsDistinct(s.den)
    ensures Shaped(Crossing(a), s, inEdges)
    ensures s.val[2][A_ATOM] != s.val[0][A_ATOM] && (a != A_ATOM ==> s.val[1][A_ATOM] == s.val[0][A_ATOM] && s.oval[1] == s.oval[0])
  {
    hide Distinct, Whole, DoneAt, SymExec, First, Second, Third, Entering, EntryVals, IsReach;
    var g := Crossing(a);
    CrossingReach(a, reach);
    ThirdEntry(a, s, inEdges, reach);
    assert DoneAt(g, s, inEdges, false, 0) && DoneAt(g, s, inEdges, false, 1) && DoneAt(g, s, inEdges, false, 2);
    EntryOk(g, s, inEdges, 0);
    EntryOk(g, s, inEdges, 1);
    EntryOk(g, s, inEdges, 2);
    SecondTerms(a, SymOf(s.den, EntryVals(g, s, inEdges, 0)));
    SecondTerms(a, SymOf(s.den, EntryVals(g, s, inEdges, 1)));
    SecondTerms(a, SymOf(s.den, EntryVals(g, s, inEdges, 2)));
    assert s.den[s.val[0][A_ATOM]] == Const(1) && s.den[s.val[2][A_ATOM]] == s.den[s.val[1][a]] == Const(7);
  }

  lemma {:induction false} EdgePath1(a: Atom)
    ensures PathTo(EdgePreds(Crossing(a)), {0, 5}, [0], 0)
    ensures PathTo(EdgePreds(Crossing(a)), {0, 5}, [0, 1], 1) && PathTo(EdgePreds(Crossing(a)), {0, 5}, [0, 6], 6)
  {
    hide First, Second, Third;
    assert [0, 1][..1] == [0] && [0, 6][..1] == [0];
  }

  /** The first edge is dominated by itself alone, those of the second block by it and themselves. */
  lemma {:induction false} CrossingDominators(a: Atom, f: EdgeId)
    ensures EdgeDominates(Crossing(a), 0, 0, 0) && (EdgeDominates(Crossing(a), 0, f, 0) ==> f == 0)
    ensures EdgeDominates(Crossing(a), 0, f, 1) ==> f == 0 || f == 1
    ensures EdgeDominates(Crossing(a), 0, f, 6) ==> f == 0 || f == 6
  {
    hide IsPath, EdgePreds, PathTo;
    EdgePath1(a);
    forall p | PathTo(EdgePreds(Crossing(a)), {0, 5}, p, 0) ensures 0 in p { PathEnds(EdgePreds(Crossing(a)), {0, 5}, p, 0); }
  }

  lemma {:induction false} PathEnds(pred: Preds, entry: set<nat>, p: seq<nat>, c: nat)
    requires PathTo(pred, entry, p, c)
    ensures c in p
  {
  }

  lemma {:induction false} CrossingLive(a: Atom, inUse: seq<set<Atom>>, outUse: seq<set<Atom>>)
    requires LiveSets(Crossing(a), ALL_FIVE, inUse, outUse)
    ensures outUse[2] == outUse[3] == outUse[4] == {}
  {
    hide First, Second, Third;
    var g := Crossing(a);
    assert LiveAt(g, inUse, outUse, 2) && LiveAt(g, inUse, outUse, 3) && LiveAt(g, inUse, outUse, 4);
  }

  // The facts that a pass over g works with.
  ghost predicate Facing(g: Graph, s: Snapshot, inEdges: seq<seq<EdgeId>>, inUse: seq<set<Atom>>, fx: EdgeFold.Facts, reach: set<Id>) {
    && Finished(g, s, inEdges, false, 0, reach) && LiveSets(g, reach, inUse, fx.outUse)
    && fx.nm == EdgeFold.Numbers(s.val, s.oval, s.den) && EdgeFold.Prepared(g, fx, 0, reach)
    && forall e, f :: 0 <= e < 2 * |g| && Tail(g, e) in reach && 0 <= f < 2 * |g| ==> (f in fx.edom[e] <==> EdgeDominates(g, 0, f, e))
  }

  lemma {:induction false} NoneDecides(g: Graph, fx: EdgeFold.Facts, e: EdgeId, h: Id, k: nat)
    requires EdgeFold.Fits(g, fx) && e < 2 * |g| && h < |g|
    requires forall f {:trigger EdgeFold.FoldEdge(g, fx.nm, h, f)} :: 0 <= f < 2 * |g| && f in fx.edom[e] ==> EdgeFold.FoldEdge(g, fx.nm, h, f) == NIL
    ensures EdgeFold.NextFold(g, fx, e, h, k) == NIL
    decreases 2 * |g| - k
  {
    hide EdgeFold.FoldEdge, EdgeFold.Conflict;
    if k < 2 * |g| { NoneDecides(g, fx, e, h, k + 1); }
  }

  /** The edges of the third block, and false edges to a return, stay. */
  lemma {:induction false} LeavesStay(a: Atom, fx: EdgeFold.Facts, g2: Graph)
    requires EdgeFold.AllPromoted(Crossing(a), g2, fx, ALL_FIVE) && SameBlocks(Crossing(a), g2)
    ensures EdgeFold.Fits(g2, fx) && g2[2] == Crossing(a)[2] && g2[0].jf == 3
  {
    hide EdgeFold.Goal, First, Second, Third;
    assert EdgeFold.Promoted(Crossing(a), g2, fx, 2) && EdgeFold.Promoted(Crossing(a), g2, fx, 7) && EdgeFold.Promoted(Crossing(a), g2, fx, 5);
    EdgeFold.GoalLeaf(g2, fx, 2, 4);
    EdgeFold.GoalLeaf(g2, fx, 7, 3);
    EdgeFold.GoalLeaf(g2, fx, 5, 3);
  }

  lemma {:induction false} ThirdUndecided(a: Atom, nm: EdgeFold.Numbers, g2: Graph, f: EdgeId)
    requires SameBlocks(Crossing(a), g2) && EdgeFold.Sized(g2, nm) && f in {0, 1, 6}
    requires nm.val[2][A_ATOM] != nm.val[0][A_ATOM] && (a != A_ATOM ==> nm.val[1][A_ATOM] == nm.val[0][A_ATOM])
    ensures EdgeFold.FoldEdge(g2, nm, 2, f) == NIL
  {
    hide First, Second, Third;
  }

  /** Nothing decides the third block. */
  lemma {:induction false} ThirdStays(a: Atom, s: Snapshot, inEdges: seq<seq<EdgeId>>, inUse: seq<set<Atom>>, fx: EdgeFold.Facts, reach: set<Id>, g2: Graph, e: EdgeId)
    requires Facing(Crossing(a), s, inEdges, inUse, fx, reach) && EdgeFold.AllPromoted(Crossing(a), g2, fx, ALL_FIVE) && SameBlocks(Crossing(a), g2)
    requires e in {0, 1, 6} && (e == 6 ==> a == A_ATOM)
    ensures EdgeFold.Fits(g2, fx) && EdgeFold.FoldedTo(g2, fx, e, 2) == EdgeFold.Goal(g2, fx, e, 2) == 2
  {
    hide First, Second, Third, EdgeDominates, EdgeFold.Conflict, EdgeFold.AllPromoted, LiveSets, Finished, EdgeFold.FoldEdge, SameBlocks;
    FinishedReach(Crossing(a), s, inEdges, 0, reach);
    CrossingReach(a, reach);
    SameSize(a, g2);
    LeavesStay(a, fx, g2);
    CrossingNumbers(a, s, inEdges, reach);
    forall f | 0 <= f < 2 * |g2| && f in fx.edom[e] ensures EdgeFold.FoldEdge(g2, fx.nm, 2, f) == NIL {
      CrossingDominators(a, f);
      ThirdUndecided(a, fx.nm, g2, f);
    }
    NoneDecides(g2, fx, e, 2, 0);
  }

  lemma {:induction false} SameSize(a: Atom, g2: Graph)
    requires SameBlocks(Crossing(a), g2)
    ensures |g2| == 5
  {
  }

  lemma {:induction false} FinishedReach(g: Graph, s: Snapshot, inEdges: seq<seq<EdgeId>>, root: Id, reach: set<Id>)
    requires Finished(g, s, inEdges, false, root, reach)
    ensures IsReach(g, root, reach)
  {
  }

  /** The sweep leaves the second block, and moves the first edge past it. */
  lemma {:induction false} FirstMoves(a: Atom, s: Snapshot, inEdges: seq<seq<EdgeId>>, inUse: seq<set<Atom>>, fx: EdgeFold.Facts, reach: set<Id>, g2: Graph)
    requires Facing(Crossing(a), s, inEdges, inUse, fx, reach) && EdgeFold.AllPromoted(Crossing(a), g2, fx, reach) && SameBlocks(Crossing(a), g2)
    ensures reach == ALL_FIVE && |g2| == 5 && g2[2] == Crossing(a)[2] && g2[0].jt == 2 && g2[0].jf == 3
  {
    hide First, Second, Third, EdgeDominates, EdgeFold.AllPromoted, LiveSets, Finished, EdgeFold.FoldedTo, EdgeFold.NextFold;
    FinishedReach(Crossing(a), s, inEdges, 0, reach);
    CrossingReach(a, reach);
    LeavesStay(a, fx, g2);
    CrossingNumbers(a, s, inEdges, reach);
    CrossingLive(a, inUse, fx.outUse);
    ThirdStays(a, s, inEdges, inUse, fx, reach, g2, 0);
    SecondStays(a, s, inEdges, inUse, fx, reach, g2);
    CrossingDominators(a, 0);
    PromotedAt(a, g2, fx, 0);
    if a != A_ATOM {
      EdgeFold.FoldStep(g2, fx, 0, 1, 0);
      assert EdgeFold.NextFold(g2, fx, 0, 1, 0) == 2;
      OneFold(a, s, fx, inEdges, reach, g2);
    }
  }

  lemma {:induction false} PromotedAt(a: Atom, g2: Graph, fx: EdgeFold.Facts, e: EdgeId)
    requires EdgeFold.AllPromoted(Crossing(a), g2, fx, ALL_FIVE) && SameBlocks(Crossing(a), g2) && e in {0, 1, 6}
    ensures EdgeFold.Promoted(Crossing(a), g2, fx, e)
  {
    hide First, Second, Third, EdgeFold.Promoted;
  }

  lemma {:induction false} SecondStays(a: Atom, s: Snapshot, inEdges: seq<seq<EdgeId>>, inUse: seq<set<Atom>>, fx: EdgeFold.Facts, reach: set<Id>, g2: Graph)
    requires Facing(Crossing(a), s, inEdges, inUse, fx, reach) && EdgeFold.AllPromoted(Crossing(a), g2, fx, ALL_FIVE) && SameBlocks(Crossing(a), g2)
    ensures g2[1] == Crossing(a)[1]
  {
    hide First, Second, Third, EdgeDominates, EdgeFold.AllPromoted, LiveSets, Finished, EdgeFold.Goal;
    LeavesStay(a, fx, g2);
    ThirdStays(a, s, inEdges, inUse, fx, reach, g2, 1);
    PromotedAt(a, g2, fx, 1);
    PromotedAt(a, g2, fx, 6);
    if a == A_ATOM {
      ThirdStays(a, s, inEdges, inUse, fx, reach, g2, 6);
    } else {
      EdgeFold.GoalLeaf(g2, fx, 6, 3);
    }
  }

  /** Folding goes on from the second block to the third and stops there. */
  lemma {:induction false} OneFold(a: Atom, s: Snapshot, fx: EdgeFold.Facts, inEdges: seq<seq<EdgeId>>, reach: set<Id>, g2: Graph)
    requires EdgeFold.Fits(g2, fx) && |g2| == 5 && EdgeFold.NextFold(g2, fx, 0, 1, 0) == 2 && EdgeFold.FoldedTo(g2, fx, 0, 2) == 2
    requires fx.level[2] < fx.level[1]
    ensures EdgeFold.FoldedTo(g2, fx, 0, 1) == 2
  {
    hide EdgeFold.NextFold;
  }

  /** The only reader of what the second block sets is the third, and it reads a. */
  lemma {:induction false} CrossingForm(a: Atom, P: set<Atom>)
    requires a in P
    ensures CrossesOnly(Crossing(a), 0, P, false) && Leveled(Crossing(a), [3, 2, 1, 0, 0])
  {
    hide NodeReads, Leads, SetBetween, Defs, First, Second, Third;
    CrossingLevels(a);
    CrossingReads(a);
  }

  lemma {:induction false} CrossingReads(a: Atom)
    ensures NodeReads(Crossing(a)[0]) == {} && NodeReads(Crossing(a)[1]) == {} && NodeReads(Crossing(a)[2]) == {a}
    ensures NodeReads(Crossing(a)[3]) == {} && NodeReads(Crossing(a)[4]) == {} && a in Defs(First(a))
  {
    hide LiveIn, Uses, Def, Defs, LostStores.Keep;
    LostStores.NoUses();
    LostStores.LiveNone(RetK(0), {});
    LostStores.LiveNone(RetK(0), {A_ATOM});
    if a == A_ATOM {
      LostStores.LiveOne(LdImm(1), {A_ATOM});
      LostStores.LiveOne(LdImm(7), {A_ATOM});
      ImmReads(7);
      DefsOne(LdImm(1));
    } else {
      SetReads(0, a, 1);
      SetReads(7, a, 1);
      FetchReads(a);
      LostStores.LiveOne(Third(a)[0], {A_ATOM});
    }
  }

  /** What a block reads does not depend on its targets. */
  lemma {:induction false} SameReads(n: Node, n2: Node)
    requires n.stmts == n2.stmts && BranchUses(n.s) == BranchUses(n2.s)
    ensures NodeReads(n) == NodeReads(n2)
  {
  }

  /** Allowing unset reads allows more graphs. */
  lemma {:induction false} CrossesMore(g: Graph, root: Id, P: set<Atom>)
    requires CrossesOnly(g, root, P, false)
    ensures CrossesOnly(g, root, P, true)
  {
    hide NodeReads, SetBetween, Leads, Defs;
  }

  lemma {:induction false} FetchReads(a: Atom)
    requires a != A_ATOM
    ensures var s := Third(a)[0]; !s.Nop? && Uses(s) == {a} && Def(s) == A_ATOM
  {
  }

  lemma {:induction false} DefsOne(s: Stmt)
    requires !s.Nop?
    ensures Defs([s]) == {Def(s)}
  {
    hide Def;
    assert [s][1..] == [];
    LostStores.DefsNone();
  }

  lemma {:induction false} SetReads(k: Word, a: Atom, v: Word)
    requires a != A_ATOM
    ensures var ss := [LdImm(k), LostStores.Keep(a), LdImm(v)]; LiveIn(ss, RetK(0), {A_ATOM}) == {} && a in Defs(ss)
  {
    hide LiveIn, Uses, Def, Defs, LostStores.Keep;
    var x, y := [LdImm(k), LostStores.Keep(a)], [LdImm(v)];
    assert [LdImm(k), LostStores.Keep(a), LdImm(v)] == x + y;
    LostStores.KeepSets(a);
    ImmReads(k);
    ImmReads(v);
    LiveInConcat(x, y, RetK(0), {A_ATOM});
    LostStores.LiveOne(LdImm(v), {A_ATOM});
    LostStores.LivePair(LdImm(k), LostStores.Keep(a), RetK(0), {});
    LostStores.NoUses();
    assert LiveIn(y, RetK(0), {A_ATOM}) == {};
    assert {} + CountedUses(RetK(0)) == {};
    assert LiveIn(x, RetK(0), {}) == {};
    LostStores.DefsTwo(LdImm(k), LostStores.Keep(a));
    LostStores.DefsJoin(x, y);
  }

  lemma {:induction false} ImmReads(k: Word)
    ensures Uses(LdImm(k)) == {} && Def(LdImm(k)) == A_ATOM
  {
  }

  lemma {:induction false} SetRun(k: Word, a: Atom, v: Word, st: State, p: Packet)
    requires a != A_ATOM
    ensures Exec([LdImm(k), LostStores.Keep(a), LdImm(v)], st, p) == Some(st[A_ATOM := k][a := k][A_ATOM := v])
  {
    var ss := [LdImm(k), LostStores.Keep(a), LdImm(v)];
    LostStores.ExecHead(ss, st, p);
    LostStores.ExecHead(ss[1..], st[A_ATOM := k], p);
    assert ss[1..] == [LostStores.Keep(a), LdImm(v)] && ss[1..][1..] == [LdImm(v)];
    ExecOne(LdImm(v), st[A_ATOM := k][a := k], p);
  }

  /** What the blocks do: the first leaves 1 in A and not 7 in a, the second 7 in a, and goes on to the third, which tests it. */
  lemma {:induction false} BlocksRun(a: Atom, st: State, p: Packet)
    ensures var e := Exec(First(a), st, p); e.Some? && e.value[A_ATOM] == 1 && e.value[a] < 7
    ensures var e := Exec(Second(a), st, p); e.Some? && e.value[a] == 7 && (a != A_ATOM ==> e.value[A_ATOM] == 1)
    ensures var e := Exec(Third(a), st, p); e.Some? && e.value[A_ATOM] == st[a]
  {
    hide Exec, LostStores.Keep;
    if a != A_ATOM {
      SetRun(0, a, 1, st, p);
      SetRun(7, a, 1, st, p);
      ExecOne(Third(a)[0], st, p);
    } else {
      ExecOne(LdImm(1), st, p);
      ExecOne(LdImm(7), st, p);
      NothingLeft(st, p);
    }
  }

  /** Why no block on the way may set what a later one reads: the check for values still in use looks at what is live after the
      target, not at what the target itself reads. So a sweep over this graph moves the first edge past the block that sets a,
      and the result changes, for every atom, state and packet. */
  lemma {:induction false} CrossingLost(a: Atom, s: Snapshot, inEdges: seq<seq<EdgeId>>, inUse: seq<set<Atom>>, fx: EdgeFold.Facts, reach: set<Id>, g2: Graph,
                                        st: State, p: Packet)
    requires Facing(Crossing(a), s, inEdges, inUse, fx, reach)
    requires EdgeFold.AllPromoted(Crossing(a), g2, fx, reach) && SameBlocks(Crossing(a), g2) && Closed(g2)
    ensures |g2| == 5 && g2[0].jt == 2 && Closed(Crossing(a))
    ensures Run(Crossing(a), 0, st, p, 4) == Return(1)
    ensures Run(g2, 0, st, p, 4) == Return(0)
  {
    hide First, Second, Third, Exec, Facing, EdgeFold.AllPromoted;
    FirstMoves(a, s, inEdges, inUse, fx, reach, g2);
    CrossingForm(a, {a});
    BlocksRun(a, st, p);
    var m := Exec(First(a), st, p).value;
    BlocksRun(a, m, p);
    BlocksRun(a, Exec(Second(a), m, p).value, p);
    OnwardRun(a, g2, st, p);
    CrossingRun(a, st, p);
  }

  lemma {:induction false} CrossingRun(a: Atom, st: State, p: Packet)
    requires Closed(Crossing(a))
    ensures Run(Crossing(a), 0, st, p, 4) == Return(1)
  {
    hide First, Second, Third, Exec;
    var g := Crossing(a);
    BlocksRun(a, st, p);
    var m := Exec(First(a), st, p).value;
    BlocksRun(a, m, p);
    var m2 := Exec(Second(a), m, p).value;
    BlocksRun(a, m2, p);
    var m3 := Exec(Third(a), m2, p).value;
    NothingLeft(m3, p);
    assert Run(g, 4, m3, p, 1) == Return(1);
    assert Run(g, 2, m2, p, 2) == Return(1);
    assert Run(g, 1, m, p, 3) == Return(1);
  }

  lemma {:induction false} OnwardRun(a: Atom, g2: Graph, st: State, p: Packet)
    requires Closed(g2) && SameBlocks(Crossing(a), g2) && g2[0].jt == 2 && g2[0].jf == 3 && g2[2] == Crossing(a)[2]
    ensures Run(g2, 0, st, p, 4) == Return(0)
  {
    hide First, Second, Third, Exec;
    BlocksRun(a, st, p);
    var m := Exec(First(a), st, p).value;
    BlocksRun(a, m, p);
    var m2 := Exec(Third(a), m, p).value;
    NothingLeft(m2, p);
    assert Run(g2, 3, m2, p, 2) == Return(0);
    assert Run(g2, 2, m, p, 3) == Return(0);
  }

  // Two blocks that compare words nobody has set.
  function Unset(): Graph {
    [ Node([LdMem(0)], Jmp(Jeq, K(1)), 1, 2),
      Node([LdMem(1)], Jmp(Jeq, K(1)), 3, 2),
      Node([], RetK(0), NIL, NIL),
      Node([], RetK(1), NIL, NIL) ]
  }

  lemma {:induction false} UnsetReach(reach: set<Id>)
    requires IsReach(Unset(), 0, reach)
    ensures reach == {0, 1, 2, 3}
  {
    hide SuccSet;
    var g := Unset();
    UnsetSuccs();
    assert ClosedUnder(g, {0, 1, 2, 3});
    assert {1, 2} <= reach && SuccSet(g, 1) <= reach;
  }

  lemma {:induction false} UnsetSuccs()
    ensures SuccSet(Unset(), 0) == {1, 2} && SuccSet(Unset(), 1) == {3, 2} && SuccSet(Unset(), 2) == {} && SuccSet(Unset(), 3) == {}
  {
  }

  lemma {:induction false} UnsetEntries(s: Snapshot, inEdges: seq<seq<EdgeId>>, reach: set<Id>)
    requires Finished(Unset(), s, inEdges, false, 0, reach) && reach == {0, 1, 2, 3}
    ensures Shaped(Unset(), s, inEdges)
    ensures forall x: Atom :: EntryVals(Unset(), s, inEdges, 0)[x] == 0
    ensures EntryVals(Unset(), s, inEdges, 1) == s.val[0]
  {
    hide DoneAt, Distinct, Whole;
    var g := Unset();
    LostStores.EntersOnly(g, reach, inEdges, 0);
    assert forall e :: 0 <= e < 2 * |g| ==> Head(g, e) != 0;
    LostStores.HasOne(inEdges[0]);
    forall x: Atom ensures EntryVals(g, s, inEdges, 0)[x] == 0 {
      assert EntryVals(g, s, inEdges, 0)[x] == Common(PredNumbers(g, inEdges[0], s.val, x));
    }
    assert EntersAt(g, reach, inEdges, 1, 0);
    LostStores.EntersOnly(g, reach, inEdges, 1);
    forall x: Atom ensures EntryVals(g, s, inEdges, 1)[x] == s.val[0][x] {
      assert AllAre(PredNumbers(g, inEdges[1], s.val, x), s.val[0][x]);
    }
  }

  lemma {:induction false} FetchNumbered(r: Reg, val: Vals, ss2: seq<Stmt>, val2: Vals, keys: seq<Key>)
    requires ExactlyAll([LdMem(r)], val, false, ss2, val2, keys)
    ensures val2 == val[A_ATOM := val[r]]
  {
    assert [LdMem(r)][1..] == [];
  }

  /** The accumulator has number 0 after both. */
  lemma {:induction false} UnsetNumbers(s: Snapshot, inEdges: seq<seq<EdgeId>>, reach: set<Id>)
    requires Finished(Unset(), s, inEdges, false, 0, reach) && ConstsDistinct(s.den)
    ensures Shaped(Unset(), s, inEdges) && s.val[0][A_ATOM] == s.val[1][A_ATOM] && s.oval[0] == s.oval[1]
  {
    hide Distinct, Whole, DoneAt, Entering, EntryVals, IsReach, ExactlyAll, Numbered;
    var g := Unset();
    UnsetReach(reach);
    UnsetEntries(s, inEdges, reach);
    FetchDone(s, inEdges, reach, 0);
    FetchDone(s, inEdges, reach, 1);
  }

  lemma {:induction false} FetchDone(s: Snapshot, inEdges: seq<seq<EdgeId>>, reach: set<Id>, b: Id)
    requires Finished(Unset(), s, inEdges, false, 0, reach) && reach == {0, 1, 2, 3} && b < 2
    ensures Shaped(Unset(), s, inEdges) && s.val[b] == EntryVals(Unset(), s, inEdges, b)[A_ATOM := EntryVals(Unset(), s, inEdges, b)[b]]
    ensures 0 < s.oval[b] < |s.den| && s.den[s.oval[b]] == Const(1)
  {
    hide ExactlyAll, Numbered, Distinct, Whole, Entering, EntryVals, IsReach;
    var g := Unset();
    assert DoneAt(g, s, inEdges, false, b);
    FetchNumbered(b, EntryVals(g, s, inEdges, b), s.node[b].stmts, s.val[b], s.keys);
  }

  lemma {:induction false} UnsetDominators(f: EdgeId)
    ensures EdgeDominates(Unset(), 0, 0, 0) && (EdgeDominates(Unset(), 0, f, 0) ==> f == 0)
  {
    hide IsPath, EdgePreds, PathTo;
    UnsetPath();
    forall p | PathTo(EdgePreds(Unset()), {0, 4}, p, 0) ensures 0 in p { PathEnds(EdgePreds(Unset()), {0, 4}, p, 0); }
  }

  lemma {:induction false} UnsetPath()
    ensures PathTo(EdgePreds(Unset()), {0, 4}, [0], 0)
  {
  }

  /** Why nothing may be read that has not been set: both words have number 0, so the first edge moves past the second comparison,
      and the result changes where the words differ. */
  lemma {:induction false} UnsetLost(s: Snapshot, inEdges: seq<seq<EdgeId>>, inUse: seq<set<Atom>>, fx: EdgeFold.Facts, reach: set<Id>, g2: Graph,
                                     st: State, p: Packet)
    requires Facing(Unset(), s, inEdges, inUse, fx, reach) && st[0] == 1 && st[1] == 0
    requires EdgeFold.AllPromoted(Unset(), g2, fx, reach) && SameBlocks(Unset(), g2) && Closed(g2)
    ensures |g2| == 4 && g2[0].jt == 3 && Closed(Unset())
    ensures Run(Unset(), 0, st, p, 3) == Return(0)
    ensures Run(g2, 0, st, p, 3) == Return(1)
  {
    hide EdgeDominates, Finished, LiveSets, EdgeFold.AllPromoted, Exec;
    var g := Unset();
    FinishedReach(g, s, inEdges, 0, reach);
    UnsetReach(reach);
    UnsetNumbers(s, inEdges, reach);
    UnsetMoves(s, inEdges, inUse, fx, reach, g2);
    UnsetRuns(g2, st, p);
  }

  lemma {:induction false} UnsetRuns(g2: Graph, st: State, p: Packet)
    requires SameBlocks(Unset(), g2) && Closed(g2) && g2[0].jt == 3 && st[0] == 1 && st[1] == 0
    ensures Closed(Unset()) && Run(Unset(), 0, st, p, 3) == Return(0) && Run(g2, 0, st, p, 3) == Return(1)
  {
    hide Exec;
    var g := Unset();
    var m: State := st[A_ATOM := 1];
    var m2: State := m[A_ATOM := 0];
    FetchRun(0, st, p);
    FetchRun(1, m, p);
    NothingLeft(m, p);
    NothingLeft(m2, p);
    assert Run(g, 2, m2, p, 1) == Return(0);
    assert Run(g, 1, m, p, 2) == Return(0);
    assert Run(g2, 3, m, p, 2) == Return(1);
  }

  lemma {:induction false} FetchRun(r: Reg, st: State, p: Packet)
    ensures Exec([LdMem(r)], st, p) == Some(st[A_ATOM := st[r]])
  {
    ExecOne(LdMem(r), st, p);
  }

  lemma {:induction false} UnsetMoves(s: Snapshot, inEdges: seq<seq<EdgeId>>, inUse: seq<set<Atom>>, fx: EdgeFold.Facts, reach: set<Id>, g2: Graph)
    requires Facing(Unset(), s, inEdges, inUse, fx, reach) && reach == {0, 1, 2, 3} && EdgeFold.AllPromoted(Unset(), g2, fx, reach) && SameBlocks(Unset(), g2)
    requires s.val[0][A_ATOM] == s.val[1][A_ATOM] && s.oval[0] == s.oval[1]
    ensures |g2| == 4 && g2[0].jt == 3
  {
    hide EdgeDominates, Finished, EdgeFold.AllPromoted, EdgeFold.NextFold, EdgeFold.FoldedTo;
    var g := Unset();
    UnsetDominators(0);
    UnsetPromoted(fx, reach, g2);
    assert LiveAt(g, inUse, fx.outUse, 3);
    EdgeFold.GoalLeaf(g2, fx, 1, 3);
    EdgeFold.GoalLeaf(g2, fx, 5, 2);
    EdgeFold.FoldStep(g2, fx, 0, 1, 0);
    EdgeFold.GoalLeaf(g2, fx, 0, 3);
    UnsetFold(fx, g2);
  }

  lemma {:induction false} UnsetPromoted(fx: EdgeFold.Facts, reach: set<Id>, g2: Graph)
    requires reach == {0, 1, 2, 3} && EdgeFold.AllPromoted(Unset(), g2, fx, reach) && SameBlocks(Unset(), g2)
    ensures EdgeFold.Promoted(Unset(), g2, fx, 0) && EdgeFold.Promoted(Unset(), g2, fx, 1) && EdgeFold.Promoted(Unset(), g2, fx, 5)
  {
    hide EdgeFold.Promoted;
  }

  lemma {:induction false} UnsetFold(fx: EdgeFold.Facts, g2: Graph)
    requires EdgeFold.Fits(g2, fx) && |g2| == 4 && EdgeFold.NextFold(g2, fx, 0, 1, 0) == 3 && EdgeFold.FoldedTo(g2, fx, 0, 3) == 3
    requires fx.level[3] < fx.level[1]
    ensures EdgeFold.FoldedTo(g2, fx, 0, 1) == 3
  {
    hide EdgeFold.NextFold;
  }

  lemma {:induction false} UnsetForm(P: set<Atom>)
    ensures CrossesOnly(Unset(), 0, P, true) && Leveled(Unset(), [2, 1, 0, 0])
  {
    hide NodeReads, Leads;
    var g := Unset();
    assert Leveled(g, [2, 1, 0, 0]);
    UnsetReads();
    forall c: Id, a: Atom | c < |g| && a in NodeReads(g[c]) ensures !SetBetween(g, 0, a, c) {
      NeverSet(a, c);
    }
  }

  lemma {:induction false} NeverSet(a: Atom, c: Id)
    requires a != A_ATOM && Closed(Unset())
    ensures !SetBetween(Unset(), 0, a, c)
  {
    hide Leads, Follows, Defs;
    forall b: Id, side, sides | b < 4 ensures !SetOn(Unset(), 0, a, b, side, sides, c) {
      UnsetDefs(b);
    }
  }

  lemma {:induction false} UnsetReads()
    ensures NodeReads(Unset()[2]) == {} && NodeReads(Unset()[3]) == {} && NodeReads(Unset()[0]) == {0} && NodeReads(Unset()[1]) == {1}
  {
    LostStores.LiveNone(RetK(0), {});
    LostStores.LiveOne(LdMem(0), {A_ATOM});
    LostStores.LiveOne(LdMem(1), {A_ATOM});
  }

  lemma {:induction false} UnsetDefs(b: Id)
    requires b < 4
    ensures Defs(Unset()[b].stmts) <= {A_ATOM}
  {
    LostStores.DefsNone();
    DefsOne(LdMem(0));
    DefsOne(LdMem(1));
  }
}
