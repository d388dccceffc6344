/** Why dropping dead stores in the pass that numbers the statements goes wrong, for every atom but A. */
module LostStores {
  import opened Words
  import opened Bpf
  import opened Blocks
  import opened Reach
  import opened Dominators
  import opened InEdges
  import opened Liveness
  import opened Values
  import opened Treatments
  import opened ValueFlow
  import opened ValuePass
  import opened ValueSound
  import opened DeadStores
  import opened Cleanup
  import opened Setters

  // A move of A to atom a, and of a to X.
  function Keep(a: Atom): Stmt
    requires a != A_ATOM
  {
    if a == X_ATOM then Tax else St(a)
  }

  function Reload(a: Atom): Stmt
    requires a != A_ATOM
  {
    if a == X_ATOM then Nop else LdxMem(a)
  }

  // Both blocks store the first byte in a; the second compares 1 with what it stored.
  function Stores(a: Atom): Graph
    requires a != A_ATOM
  {
    [ Node([LdAbs(B, 0), Keep(a)], Jmp(Jeq, K(9)), 3, 1),
      Node([LdAbs(B, 0), Keep(a), LdImm(1), Reload(a)], Jmp(Jgt, X), 2, 3),
      Node([], RetK(1), NIL, NIL),
      Node([], RetK(0), NIL, NIL) ]
  }

  ghost const ALL_FOUR: set<Id> := {0, 1, 2, 3}

  // What numbering leaves of the second: the byte is in A and in a already.
  function Shortened(a: Atom): seq<Stmt>
    requires a != A_ATOM
  {
    [Nop, Nop, LdImm(1), Reload(a)]
  }

  lemma {:induction false} KeepSets(a: Atom)
    requires a != A_ATOM
    ensures Def(Keep(a)) == a && Uses(Keep(a)) == {A_ATOM} && !Keep(a).Nop?
    ensures Reload(a).Nop? <==> a == X_ATOM
    ensures a != X_ATOM ==> Def(Reload(a)) == X_ATOM && Uses(Reload(a)) == {a}
  {
  }

  lemma {:induction false} StoresReach(reach: set<Id>, a: Atom)
    requires a != A_ATOM && IsReach(Stores(a), 0, reach)
    ensures Closed(Stores(a)) && reach == ALL_FOUR
  {
    var g := Stores(a);
    assert SuccSet(g, 0) == {3, 1} && SuccSet(g, 1) == {2, 3} && SuccSet(g, 2) == {} && SuccSet(g, 3) == {};
    assert ClosedUnder(g, ALL_FOUR);
    assert 1 in reach && 3 in reach && 2 in reach;
  }

  lemma {:induction false} EntersOnly(g: Graph, reach: set<Id>, inEdges: seq<seq<EdgeId>>, c: Id)
    requires Entering(g, reach, inEdges) && c < |g|
    ensures forall e :: e in inEdges[c] ==> 0 <= e < 2 * |g| && Tail(g, e) in reach && Head(g, e) == c
  {
    forall e | e in inEdges[c] ensures 0 <= e < 2 * |g| && Tail(g, e) in reach && Head(g, e) == c {
      assert EntersAt(g, reach, inEdges, c, e);
    }
  }

  lemma {:induction false} HasOne(xs: seq<EdgeId>)
    ensures |xs| > 0 ==> exists e :: e in xs
  {
    if |xs| > 0 { assert xs[0] in xs; }
  }

  lemma {:induction false} NoneToFirst(a: Atom)
    requires a != A_ATOM
    ensures forall e :: 0 <= e < 2 * |Stores(a)| ==> Head(Stores(a), e) != 0
  {
  }

  /** Nothing enters the first block, and only the first block's false edge enters the second. */
  lemma {:induction false} StoresEntry(a: Atom, s: Snapshot, inEdges: seq<seq<EdgeId>>, reach: set<Id>)
    requires a != A_ATOM && Finished(Stores(a), s, inEdges, true, 0, reach)
    ensures Shaped(Stores(a), s, inEdges)
    ensures forall x: Atom :: EntryVals(Stores(a), s, inEdges, 0)[x] == 0
    ensures EntryVals(Stores(a), s, inEdges, 1) == s.val[0]
  {
    hide DoneAt, Distinct, Whole;
    var g := Stores(a);
    StoresReach(reach, a);
    EntersOnly(g, reach, inEdges, 0);
    NoneToFirst(a);
    HasOne(inEdges[0]);
    forall x: Atom ensures EntryVals(g, s, inEdges, 0)[x] == 0 {
      assert EntryVals(g, s, inEdges, 0)[x] == Common(PredNumbers(g, inEdges[0], s.val, x));
    }
    assert EntersAt(g, reach, inEdges, 1, EdgeOf(g, 0, false));
    forall i | 0 <= i < |inEdges[1]| ensures Tail(g, inEdges[1][i]) == 0 {
      assert EntersAt(g, reach, inEdges, 1, inEdges[1][i]);
    }
    forall x: Atom ensures EntryVals(g, s, inEdges, 1)[x] == s.val[0][x] {
      var nums := PredNumbers(g, inEdges[1], s.val, x);
      assert AllAre(nums, s.val[0][x]);
    }
  }

  // The value numbers of the first byte and of 1.
  ghost function ByteNo(keys: seq<Key>): nat { NumOf(keys, Key(CAbs(B), 0, 0)) }

  /** The first block keeps its statements; A and a end with the number of the byte. */
  lemma {:induction false} FirstNumbered(a: Atom, entry: Vals, ss2: seq<Stmt>, val2: Vals, keys: seq<Key>)
    requires a != A_ATOM && ExactlyAll(Stores(a)[0].stmts, entry, true, ss2, val2, keys) && forall x: Atom :: entry[x] == 0
    ensures ss2 == Stores(a)[0].stmts && ByteNo(keys) > 0
    ensures val2 == entry[A_ATOM := ByteNo(keys)][a := ByteNo(keys)]
  {
    hide NumOf;
    var n := ByteNo(keys);
    var ss := Stores(a)[0].stmts;
    KeepSets(a);
    assert ss[1..] == [Keep(a)] && [Keep(a)][1..] == [];
    assert ExactlyAll([Keep(a)], entry[A_ATOM := n], true, ss2[1..], val2, keys);
    assert ss2[1..][1..] == [];
    assert ss2 == [ss2[0]] + [ss2[1]];
  }

  /** The second block loses its load and its store. */
  lemma {:induction false} SecondNumbered(a: Atom, entry: Vals, ss2: seq<Stmt>, val2: Vals, keys: seq<Key>)
    requires a != A_ATOM && ExactlyAll(Stores(a)[1].stmts, entry, true, ss2, val2, keys)
    requires ByteNo(keys) > 0 && entry[A_ATOM] == entry[a] == ByteNo(keys) && (a != X_ATOM ==> entry[X_ATOM] == 0)
    ensures ss2 == Shortened(a) && val2[A_ATOM] != entry[A_ATOM]
  {
    hide NumOf;
    var n := ByteNo(keys);
    var ss := Stores(a)[1].stmts;
    var m := NumOf(keys, ConstKey(1));
    KeepSets(a);
    var s1, s2, s3 := [Keep(a), LdImm(1), Reload(a)], [LdImm(1), Reload(a)], [Reload(a)];
    assert ss[1..] == s1 && s1[1..] == s2 && s2[1..] == s3 && s3[1..] == [];
    var t1 := ss2[1..];
    assert ExactlyAll(s1, entry, true, t1, val2, keys) && ss2[0] == Nop;
    var t2 := t1[1..];
    assert ExactlyAll(s2, entry, true, t2, val2, keys) && t1[0] == Nop;
    assert m > 0 && m != n;
    var t3 := t2[1..];
    assert ExactlyAll(s3, entry[A_ATOM := m], true, t3, val2, keys) && t2[0] == LdImm(1);
    ReloadNumbered(a, entry[A_ATOM := m], t3, val2, keys);
    assert ss2 == [ss2[0]] + t1 && t1 == [t1[0]] + t2 && t2 == [t2[0]] + t3;
    assert ss2 == Shortened(a);
  }

  lemma {:induction false} ReloadNumbered(a: Atom, val: Vals, ss2: seq<Stmt>, val2: Vals, keys: seq<Key>)
    requires a != A_ATOM && ExactlyAll([Reload(a)], val, true, ss2, val2, keys)
    requires ByteNo(keys) > 0 && val[a] == ByteNo(keys) && (a != X_ATOM ==> val[X_ATOM] == 0)
    ensures ss2 == [Reload(a)] && val2[A_ATOM] == val[A_ATOM]
  {
    hide NumOf;
    KeepSets(a);
    assert [Reload(a)][1..] == [];
    assert ConstAt(keys, ByteNo(keys)) == None;
    assert ss2[1..] == [];
  }

  /** What a pass over the graph leaves, derived from what the pass does. */
  lemma {:induction false} StoresNumbered(a: Atom, s: Snapshot, inEdges: seq<seq<EdgeId>>, reach: set<Id>)
    requires a != A_ATOM && Finished(Stores(a), s, inEdges, true, 0, reach)
    ensures reach == ALL_FOUR && Shaped(Stores(a), s, inEdges)
    ensures s.node[0].stmts == Stores(a)[0].stmts && s.node[1].stmts == Shortened(a)
    ensures EntryVals(Stores(a), s, inEdges, 0)[A_ATOM] == 0
    ensures s.val[1][A_ATOM] != EntryVals(Stores(a), s, inEdges, 1)[A_ATOM]
  {
    hide Distinct, Whole, Numbered, Issued, OperandNumber, ExactlyAll, Entering, EntryVals;
    var g := Stores(a);
    StoresReach(reach, a);
    StoresEntry(a, s, inEdges, reach);
    assert DoneAt(g, s, inEdges, true, 0) && DoneAt(g, s, inEdges, true, 1);
    FirstNumbered(a, EntryVals(g, s, inEdges, 0), s.node[0].stmts, s.val[0], s.keys);
    SecondNumbered(a, s.val[0], s.node[1].stmts, s.val[1], s.keys);
  }

  lemma {:induction false} ExecHead(ss: seq<Stmt>, st: State, p: Packet)
    requires |ss| > 0 && Step(ss[0], st, p).Some?
    ensures Exec(ss, st, p) == Exec(ss[1..], Step(ss[0], st, p).value, p)
  {
    hide Step;
  }

  // Setting X to a, after setting A to 1.
  lemma {:induction false} LastTwo(a: Atom, st: State, p: Packet)
    requires a != A_ATOM
    ensures Exec([LdImm(1), Reload(a)], st, p) == Some(st[A_ATOM := 1][X_ATOM := st[a]])
  {
    var y: State := st[A_ATOM := 1];
    ExecHead([LdImm(1), Reload(a)], st, p);
    assert [LdImm(1), Reload(a)][1..] == [Reload(a)];
    ExecOne(Reload(a), y, p);
    assert a == X_ATOM ==> y[X_ATOM := st[a]] == y;
  }

  lemma {:induction false} ShortRun(a: Atom, st: State, p: Packet)
    requires a != A_ATOM
    ensures Exec(Shortened(a), st, p) == Some(st[A_ATOM := 1][X_ATOM := st[a]])
  {
    hide Exec, Step, Reload;
    NopSteps(st, p);
    var ss := Shortened(a);
    ExecHead(ss, st, p);
    ExecHead(ss[1..], st, p);
    assert ss[1..][1..] == [LdImm(1), Reload(a)];
    LastTwo(a, st, p);
  }

  /** The first byte goes to A, and to a if it is stored. */
  lemma {:induction false} FirstTwo(a: Atom, stored: bool, st: State, p: Packet)
    requires a != A_ATOM && |p.bytes| > 0
    ensures var v := p.bytes[0];
      Exec([LdAbs(B, 0), if stored then Keep(a) else Nop], st, p) == Some(if stored then st[A_ATOM := v][a := v] else st[A_ATOM := v])
  {
    var v := p.bytes[0];
    var s := if stored then Keep(a) else Nop;
    ExecHead([LdAbs(B, 0), s], st, p);
    assert [LdAbs(B, 0), s][1..] == [s];
    ExecOne(s, st[A_ATOM := v], p);
  }

  lemma {:induction false} FullRun(a: Atom, st: State, p: Packet)
    requires a != A_ATOM && |p.bytes| > 0
    ensures var v := p.bytes[0];
      Exec(Stores(a)[1].stmts, st, p) == Some(st[A_ATOM := v][a := v][A_ATOM := 1][X_ATOM := v])
  {
    hide Exec, Step, Keep, Reload;
    var v := p.bytes[0];
    FirstTwo(a, true, st, p);
    LastTwo(a, st[A_ATOM := v][a := v], p);
    ExecConcat([LdAbs(B, 0), Keep(a)], [LdImm(1), Reload(a)], st, p);
    assert Stores(a)[1].stmts == [LdAbs(B, 0), Keep(a)] + [LdImm(1), Reload(a)];
  }

  lemma {:induction false} LiveNone(br: Branch, out: set<Atom>)
    ensures LiveIn([], br, out) == out + CountedUses(br)
  {
  }

  lemma {:induction false} LivePair(s: Stmt, t: Stmt, br: Branch, out: set<Atom>)
    requires !s.Nop?
    ensures LiveIn([s, t], br, out) ==
      Uses(s) + ((if t.Nop? then out + CountedUses(br) else Uses(t) + (out + CountedUses(br) - {Def(t)})) - {Def(s)})
  {
    hide Uses, Def;
    assert [s, t][1..] == [t] && [t][1..] == [];
    LiveNone(br, out);
  }

  /** Neither block reads an atom it has not set. */
  lemma {:induction false} StoresRead(a: Atom, br: Branch, out: set<Atom>)
    requires a != A_ATOM && out + CountedUses(br) <= {A_ATOM, X_ATOM}
    ensures LiveIn(Stores(a)[1].stmts, br, out) == {}
    ensures X_ATOM !in out + CountedUses(br) || a == X_ATOM ==> LiveIn(Stores(a)[0].stmts, br, out) == {}
  {
    hide LiveIn, CountedUses;
    var ss, e := Stores(a)[1].stmts, out + CountedUses(br);
    KeepSets(a);
    LivePair(LdAbs(B, 0), Keep(a), br, out);
    LivePair(LdImm(1), Reload(a), br, out);
    var rest := LiveIn([LdImm(1), Reload(a)], br, out);
    assert ss == [LdAbs(B, 0), Keep(a)] + [LdImm(1), Reload(a)];
    LiveInConcat([LdAbs(B, 0), Keep(a)], [LdImm(1), Reload(a)], br, out);
    LivePair(LdAbs(B, 0), Keep(a), RetK(0), rest);
    NoUses();
  }

  lemma {:induction false} NoUses()
    ensures CountedUses(RetK(0)) == {} && Uses(LdAbs(B, 0)) == {} && Uses(LdImm(1)) == {}
    ensures Def(LdAbs(B, 0)) == A_ATOM && Def(LdImm(1)) == A_ATOM
  {
  }

  lemma {:induction false} StoresLive(a: Atom, inUse: seq<set<Atom>>, outUse: seq<set<Atom>>)
    requires a != A_ATOM && LiveSets(Stores(a), ALL_FOUR, inUse, outUse)
    ensures outUse[0] == {} && outUse[1] == {}
    ensures forall b :: 0 <= b < 4 ==> SelfContained(Stores(a)[b])
  {
    hide LiveIn, Keep, Reload;
    var g := Stores(a);
    assert LiveAt(g, inUse, outUse, 0) && LiveAt(g, inUse, outUse, 1) && LiveAt(g, inUse, outUse, 2) && LiveAt(g, inUse, outUse, 3);
    LiveNone(g[2].s, {});
    LiveNone(g[3].s, {});
    LiveNone(RetK(0), {});
    assert g[2].stmts == [] && g[3].stmts == [] && inUse[2] == {} && inUse[3] == {};
    StoresRead(a, g[1].s, {});
    assert outUse[1] == {} && inUse[1] == {} && outUse[0] == {};
    StoresRead(a, RetK(0), BranchUses(g[1].s));
    StoresRead(a, RetK(0), BranchUses(g[0].s));
  }

  /** The store of the first block is dead: its own branch reads A alone. */
  lemma {:induction false} StoreDropped(a: Atom, ss2: seq<Stmt>)
    requires a != A_ATOM && |ss2| == 2
    requires forall k :: 0 <= k < 2 ==> ss2[k] == if Needed(Stores(a)[0].stmts, k, {A_ATOM}) then Stores(a)[0].stmts[k] else Nop
    ensures ss2 == [LdAbs(B, 0), Nop]
  {
    hide LiveIn, Needed, Keep;
    var ss := Stores(a)[0].stmts;
    KeepSets(a);
    NeededLive(ss, 0, {A_ATOM});
    NeededLive(ss, 1, {A_ATOM});
    assert ss[1..] == [Keep(a)] && ss[2..] == [];
    LiveNone(RetK(0), {A_ATOM});
    LiveOne(Keep(a), {A_ATOM});
    assert ss2 == [ss2[0], ss2[1]];
  }

  lemma {:induction false} LiveOne(s: Stmt, out: set<Atom>)
    requires !s.Nop?
    ensures LiveIn([s], RetK(0), out) == Uses(s) + (out - {Def(s)})
  {
    hide Uses, Def;
    assert [s][1..] == [];
    LiveNone(RetK(0), out);
  }

  lemma {:induction false} ShortKept(a: Atom, ss2: seq<Stmt>)
    requires a != A_ATOM && |ss2| == 4
    requires forall k :: 0 <= k < 4 ==> ss2[k] == if Needed(Shortened(a), k, {A_ATOM, X_ATOM}) then Shortened(a)[k] else Nop
    ensures ss2 == Shortened(a)
  {
    hide LiveIn, Needed, Reload;
    var ss, keep := Shortened(a), {A_ATOM, X_ATOM};
    KeepSets(a);
    NeededLive(ss, 2, keep);
    NeededLive(ss, 3, keep);
    assert ss[3..] == [Reload(a)] && ss[4..] == [];
    LiveNone(RetK(0), keep);
    if a != X_ATOM { LiveOne(Reload(a), keep); } else { LiveNop(keep); }
    assert ss2 == [ss2[0], ss2[1], ss2[2], ss2[3]];
  }

  lemma {:induction false} LiveNop(out: set<Atom>)
    ensures LiveIn([Nop], RetK(0), out) == out
  {
    assert [Nop][1..] == [];
    LiveNone(RetK(0), out);
  }

  /** The graph is acyclic, sets what it reads, and divides nowhere. */
  lemma {:induction false} StoresForm(a: Atom)
    requires a != A_ATOM
    ensures Leveled(Stores(a), [2, 1, 0, 0])
    ensures forall b :: 0 <= b < 4 ==> SelfContained(Stores(a)[b]) && !Stores(a)[b].s.RetA? && NoDivision(Stores(a)[b].stmts)
  {
    hide LiveIn;
    var g := Stores(a);
    StoresRead(a, RetK(0), BranchUses(g[1].s));
    StoresRead(a, RetK(0), BranchUses(g[0].s));
    LiveNone(RetK(0), {});
  }

  lemma {:induction false} StoresDefs(a: Atom)
    requires a != A_ATOM
    ensures Defs(Stores(a)[0].stmts) == {A_ATOM, a} && Defs(Stores(a)[1].stmts) <= {A_ATOM, a, X_ATOM}
    ensures Stores(a)[2].stmts == [] && Stores(a)[3].stmts == []
  {
    hide Def, Keep, Reload;
    KeepSets(a);
    NoUses();
    DefsTwo(LdAbs(B, 0), Keep(a));
    DefsTwo(LdImm(1), Reload(a));
    DefsJoin([LdAbs(B, 0), Keep(a)], [LdImm(1), Reload(a)]);
    assert Stores(a)[1].stmts == [LdAbs(B, 0), Keep(a)] + [LdImm(1), Reload(a)];
  }

  lemma {:induction false} DefsTwo(s: Stmt, t: Stmt)
    ensures Defs([s, t]) == (if s.Nop? then {} else {Def(s)}) + (if t.Nop? then {} else {Def(t)})
  {
    hide Def;
    assert [s, t][1..] == [t] && [t][1..] == [];
    DefsNone();
    assert Defs([t]) == if t.Nop? then {} else {Def(t)};
  }

  lemma {:induction false} DefsJoin(s: seq<Stmt>, t: seq<Stmt>)
    ensures Defs(s + t) == Defs(s) + Defs(t)
  {
    hide Def;
    if |s| == 0 {
      assert s + t == t;
    } else {
      assert (s + t)[1..] == s[1..] + t;
      DefsJoin(s[1..], t);
    }
  }

  /** Besides A, only a is set twice. */
  lemma {:induction false} StoresAgain(a: Atom, P: set<Atom>)
    requires a != A_ATOM && a in P
    ensures SetAgainOnly(Stores(a), 0, P)
  {
    hide Defs, Leads, Follows;
    var g := Stores(a);
    StoresDefs(a);
    DefsNone();
    forall c: Id, x: Atom | c < 4 && x != A_ATOM && SetBefore(g, 0, x, c) && x in Defs(g[c].stmts) ensures x in P {
      var b: Id, side, sides :| SetOn(g, 0, x, b, side, sides, c);
      EndHere(a, 2, sides, c);
      EndHere(a, 3, sides, c);
    }
  }

  lemma {:induction false} EndHere(a: Atom, b: Id, sides: seq<bool>, c: Id)
    requires a != A_ATOM && (b == 2 || b == 3) && Closed(Stores(a))
    ensures Follows(Stores(a), b, sides, c) ==> c == b
  {
  }

  lemma {:induction false} DefsNone()
    ensures Defs([]) == {}
  {
  }

  /** The pass over this graph changes its result: it finds the second block's store superfluous, because the first block's has
      given a its number, and drops the first block's, because nothing read it before. */
  lemma {:induction false} StoreLost(a: Atom, s: Snapshot, inEdges: seq<seq<EdgeId>>, inUse: seq<set<Atom>>, outUse: seq<set<Atom>>,
                                     reach: set<Id>, g2: Graph, st: State, v: Byte, n: Word)
    requires a != A_ATOM && Finished(Stores(a), s, inEdges, true, 0, reach)
    requires LiveSets(Stores(a), reach, inUse, outUse) && Tidied(Stores(a), s, inEdges, outUse, reach, g2)
    requires 0 < v < 9 && st[a] == 0
    ensures Closed(Stores(a)) && Closed(g2) && |g2| == 4
    ensures Run(Stores(a), 0, st, Packet([v], n), 3) == Return(0)
    ensures Run(g2, 0, st, Packet([v], n), 3) == Return(1)
  {
    hide LiveSets, EntryVals, LiveIn, Keep, Reload, Finished;
    var g := Stores(a);
    var p := Packet([v], n);
    StoresNumbered(a, s, inEdges, reach);
    StoresLive(a, inUse, outUse);
    TidiedClosed(g, s, inEdges, outUse, reach, g2);
    assert TidiedAt(g, s, inEdges, outUse, g2, 0) && TidiedAt(g, s, inEdges, outUse, g2, 1)
        && TidiedAt(g, s, inEdges, outUse, g2, 2) && TidiedAt(g, s, inEdges, outUse, g2, 3);
    StoreDropped(a, g2[0].stmts);
    ShortKept(a, g2[1].stmts);
    var x: State := st[A_ATOM := v];
    FirstTwo(a, true, st, p);
    FirstTwo(a, false, st, p);
    FullRun(a, x[a := v], p);
    ShortRun(a, x, p);
  }
}
