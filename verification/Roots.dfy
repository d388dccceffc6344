/** Skipping the branches at the root whose sides lead to the same block. */
module Roots {
  import opened Bpf
  import opened Blocks
  import opened Reach
  import opened Layout
  import opened Liveness
  import opened Walks
  import Backpatch
  import Crossings
  import GeneratorForm

  /** Where every block sets what it reads, the state a run starts from does not matter, faults included. */
  lemma {:induction false} AnyState(g: Graph, lv: Blocks.Levels, b: Id, x: State, y: State, p: Packet, fuel: nat)
    requires Leveled(g, lv) && Backpatch.OwnFrom(g, 0) && b < |g|
    ensures Run(g, b, x, p, fuel) == Run(g, b, y, p, fuel)
    decreases fuel
  {
    hide Exec, LiveIn, Taken;
    if fuel > 0 {
      var n := g[b];
      assert SelfContained(n);
      ExecAgrees(n.stmts, RetK(0), BranchUses(n.s), x, y, p);
      var e, f := Exec(n.stmts, x, p), Exec(n.stmts, y, p);
      if e.Some? {
        SameLanding(n.s, e.value, f.value);
        if n.s.Jmp? { AnyState(g, lv, n.Succ(Taken(n.s, e.value)), e.value, f.value, p, fuel - 1); }
      }
    }
  }

  lemma {:induction false} SameLanding(br: Branch, x: State, y: State)
    requires AgreeOn(BranchUses(br), x, y)
    ensures br.Jmp? ==> Taken(br, x) == Taken(br, y)
    ensures br.RetA? ==> x[A_ATOM] == y[A_ATOM]
  {
  }

  /** Changes to blocks at level n or above are not seen from below. */
  lemma {:induction false} RunBelow(g: Graph, g2: Graph, lv: Blocks.Levels, n: nat, b: Id, st: State, p: Packet, fuel: nat)
    requires Leveled(g, lv) && Leveled(g2, lv) && |g2| == |g| && b < |g| && lv[b] < n
    requires forall c :: 0 <= c < |g| && lv[c] < n ==> g2[c] == g[c]
    ensures Run(g2, b, st, p, fuel) == Run(g, b, st, p, fuel)
    decreases fuel
  {
    hide Land;
    if fuel > 0 && Land(g[b], st, p).Next? {
      NextJumps(g[b], st, p);
      var l := Land(g[b], st, p);
      RunBelow(g, g2, lv, n, g[b].Succ(l.side), l.st, p, fuel - 1);
    }
  }

  lemma {:induction false} NextJumps(n: Node, st: State, p: Packet)
    ensures Land(n, st, p).Next? ==> n.s.Jmp?
  {
  }

  /** The first block from b on that is no branch with one target. */
  function Decider(g: Graph, lv: Blocks.Levels, b: Id): (r: Id)
    requires Leveled(g, lv) && b < |g|
    ensures r < |g| && lv[r] <= lv[b] && (r != b ==> lv[r] < lv[b] && g[b].s.Jmp?)
    ensures g[r].s.Jmp? ==> g[r].jt != g[r].jf
    decreases lv[b]
  {
    if g[b].s.Jmp? && g[b].jt == g[b].jf then Decider(g, lv, g[b].jt) else b
  }

  /** The new root block: it runs the old root's statements first, or none if it returns. */
  function NewRoot(g: Graph, root: Id, b: Id): Node
    requires root < |g| && b < |g|
  {
    if !g[b].s.Jmp? then g[b].(stmts := []) else if b == root then g[b] else g[b].(stmts := g[root].stmts + g[b].stmts)
  }

  /** What skipping the branches at the root makes of g: the new root, and the blocks. */
  predicate RootOf(g: Graph, root: Id, lv: Blocks.Levels, g2: Graph, root2: Id) {
    && Leveled(g, lv) && root < |g| && root2 == Decider(g, lv, root)
    && g2 == g[root := g[root].(stmts := [])][root2 := NewRoot(g, root, root2)]
  }

  // Every walk comes from b to the block that decides, unless it ends in a fault.
  lemma {:induction false} WalkOn(g: Graph, S: set<Id>, lv: Blocks.Levels, ch: seq<Choice>, b: Id)
    requires Leveled(g, lv) && Descends(g, S, lv) && |ch| == |g| && b in S && b < |g|
    requires forall c {:trigger ch[c]} :: 0 <= c < |g| && g[c].s.Jmp? ==> ch[c].Go? || ch[c] == End(Fault)
    ensures Decider(g, lv, b) in S
    ensures Walk(g, S, lv, ch, b) == Fault || Walk(g, S, lv, ch, Decider(g, lv, b)) == Walk(g, S, lv, ch, b)
    decreases lv[b]
  {
    if g[b].s.Jmp? && g[b].jt == g[b].jf {
      Down(g, S, lv, b, true);
      WalkOn(g, S, lv, ch, g[b].jt);
    }
  }

  lemma {:induction false} ChoicesGo(g: Graph, root: Id, st: State, p: Packet)
    requires root < |g|
    ensures forall c {:trigger GeneratorForm.RunChoices(g, root, st, p)[c]} :: 0 <= c < |g| && g[c].s.Jmp? ==>
      var d := GeneratorForm.RunChoices(g, root, st, p)[c]; d.Go? || d == End(Fault)
  {
    hide Exec;
  }

  lemma {:induction false} AllDescend(g: Graph, lv: Blocks.Levels, root: Id, S: set<Id>)
    requires Leveled(g, lv) && IsReach(g, root, S)
    ensures Descends(g, S, lv) && root in S
  {
    forall b | b in S ensures b < |g| && DownAt(g, S, lv, b) {
      assert SuccSet(g, b) <= S;
    }
  }

  lemma {:induction false} RootLeveled(g: Graph, root: Id, lv: Blocks.Levels, g2: Graph, root2: Id)
    requires RootOf(g, root, lv, g2, root2)
    ensures Leveled(g2, lv) && |g2| == |g| && root2 < |g2| && lv[root2] <= lv[root]
    ensures forall c :: 0 <= c < |g| && lv[c] < lv[root2] ==> g2[c] == g[c]
  {
    forall b | 0 <= b < |g2| ensures g2[b].s == g[b].s && g2[b].jt == g[b].jt && g2[b].jf == g[b].jf {
    }
  }

  /** If no block on the way from the root sets what another one reads, the new root starts a run that ends as the old one's do,
      unless that faults: the statements of the blocks skipped are not missed. */
  lemma {:induction false} RootKeeps(g: Graph, root: Id, lv: Blocks.Levels, g2: Graph, root2: Id, st: State, p: Packet, fuel: nat)
    requires RootOf(g, root, lv, g2, root2) && Crossings.CrossesOnly(g, root, {}, true) && ReturnsConstants(g) && lv[root] < fuel
    ensures Leveled(g2, lv) && root2 < |g2|
    ensures Run(g, root, st, p, fuel) == Fault || Run(g2, root2, st, p, fuel) == Run(g, root, st, p, fuel)
  {
    hide Exec, Taken, Crossings.CrossesOnly, GeneratorForm.Relies, GeneratorForm.RunChoices, IsReach, Descends, ReturnsConstants, Walk, Run;
    RootLeveled(g, root, lv, g2, root2);
    VisitReach(g, lv, root, true);
    var S := Elems(Visit(g, lv, root, [], true));
    AllDescend(g, lv, root, S);
    Crossings.NoneCrosses(g, root, S, true);
    var kept := Crossings.FromRoot(g, root);
    RelyFacts(g, root, S, kept);
    var ch := GeneratorForm.RunChoices(g, root, st, p);
    if Exec(g[root].stmts, st, p).None? {
      FaultAtOnce(g, root, st, p, fuel);
    } else {
      SameAsSelf(g);
      GeneratorForm.WholeRun(g, g, root, S, kept, lv, st, p, fuel);
      ChoicesGo(g, root, st, p);
      WalkOn(g, S, lv, ch, root);
      if root2 == root {
        SameRoot(g, root, g2, lv, st, p, fuel);
      } else {
        NewRootRun(g, root, lv, g2, root2, S, kept, st, p, fuel);
      }
    }
  }

  lemma {:induction false} RelyFacts(g: Graph, root: Id, S: set<Id>, kept: seq<set<Atom>>)
    requires GeneratorForm.Relies(g, root, S, kept)
    ensures |kept| == |g| && root < |g| && GeneratorForm.Carried(g, root, S, kept)
  {
  }

  lemma {:induction false} FaultAtOnce(g: Graph, root: Id, st: State, p: Packet, fuel: nat)
    requires Closed(g) && root < |g| && fuel > 0 && Exec(g[root].stmts, st, p).None?
    ensures Run(g, root, st, p, fuel) == Fault
  {
    hide Exec;
  }

  /** A root that stays: only a return loses its statements. */
  lemma {:induction false} SameRoot(g: Graph, root: Id, g2: Graph, lv: Blocks.Levels, st: State, p: Packet, fuel: nat)
    requires RootOf(g, root, lv, g2, root) && ReturnsConstants(g) && fuel > 0 && Closed(g2) && Exec(g[root].stmts, st, p).Some?
    ensures Run(g2, root, st, p, fuel) == Run(g, root, st, p, fuel)
  {
    hide Exec, Decider;
    NothingLeft(st, p);
    if g[root].s.Jmp? { assert g2 == g; }
  }

  lemma {:induction false} NewRootRun(g: Graph, root: Id, lv: Blocks.Levels, g2: Graph, b: Id, S: set<Id>, kept: seq<set<Atom>>,
                                      st: State, p: Packet, fuel: nat)
    requires RootOf(g, root, lv, g2, b) && b != root && Leveled(g2, lv) && ReturnsConstants(g) && lv[root] < fuel && root in S
    requires Descends(g, S, lv) && GeneratorForm.Relies(g, root, S, kept) && b in S && Exec(g[root].stmts, st, p).Some?
    ensures var w := Walk(g, S, lv, GeneratorForm.RunChoices(g, root, st, p), b); w == Fault || Run(g2, b, st, p, fuel) == w
  {
    hide Exec, Taken, GeneratorForm.Relies, GeneratorForm.Carried, GeneratorForm.Sets, Descends, ReturnsConstants, Decider, GeneratorForm.AfterRoot,
         GeneratorForm.RunChoices, Run, Walk, Leveled;
    var y := GeneratorForm.AfterRoot(g, root, st, p);
    AfterIs(g, root, st, p);
    RootLeveled(g, root, lv, g2, b);
    ReturnsAt(g, b);
    NewRootIs(g, root, lv, g2, b);
    ChoiceIs(g, root, st, p, b);
    if !g[b].s.Jmp? {
      ReturnRun(g, S, lv, GeneratorForm.RunChoices(g, root, st, p), g2, b, y, st, p, fuel);
    } else {
      ExecConcat(g[root].stmts, g[b].stmts, st, p);
      if Exec(g[b].stmts, y, p).None? {
        FaultWalk(g, S, lv, GeneratorForm.RunChoices(g, root, st, p), b, y, p);
      } else {
        BranchRun(g, root, lv, g2, b, S, kept, st, p, fuel);
      }
    }
  }

  lemma {:induction false} NewRootIs(g: Graph, root: Id, lv: Blocks.Levels, g2: Graph, b: Id)
    requires RootOf(g, root, lv, g2, b) && b != root
    ensures |g2| == |g| && b < |g| && g2[b] == g[b].(stmts := if g[b].s.Jmp? then g[root].stmts + g[b].stmts else []) && lv[b] < lv[root]
  {
  }

  lemma {:induction false} ChoiceIs(g: Graph, root: Id, st: State, p: Packet, b: Id)
    requires root < |g| && b < |g| && b != root
    ensures GeneratorForm.RunChoices(g, root, st, p)[b] == ChoiceIn(g[b], GeneratorForm.AfterRoot(g, root, st, p), p)
  {
    hide ChoiceIn, GeneratorForm.AfterRoot;
  }

  lemma {:induction false} ReturnRun(g: Graph, S: set<Id>, lv: Blocks.Levels, ch: seq<Choice>, g2: Graph, b: Id, y: State, st: State, p: Packet, fuel: nat)
    requires Descends(g, S, lv) && |ch| == |g| == |g2| && b in S && b < |g| && g[b].s.RetK? && ch[b] == ChoiceIn(g[b], y, p)
    requires Closed(g2) && g2[b] == g[b].(stmts := []) && fuel > 0
    ensures var w := Walk(g, S, lv, ch, b); w == Fault || Run(g2, b, st, p, fuel) == w
  {
    hide Exec;
    NothingLeft(st, p);
  }

  lemma {:induction false} FaultWalk(g: Graph, S: set<Id>, lv: Blocks.Levels, ch: seq<Choice>, b: Id, y: State, p: Packet)
    requires Descends(g, S, lv) && |ch| == |g| && b in S && b < |g| && ch[b] == ChoiceIn(g[b], y, p) && Exec(g[b].stmts, y, p).None?
    ensures Walk(g, S, lv, ch, b) == Fault
  {
    hide Exec;
  }

  // One step of the run, and of the walk.
  lemma {:induction false} StepOn(g: Graph, S: set<Id>, lv: Blocks.Levels, ch: seq<Choice>, g2: Graph, b: Id, y: State, z: State, st: State, p: Packet, fuel: nat)
    requires Descends(g, S, lv) && |ch| == |g| == |g2| && b in S && b < |g| && g[b].s.Jmp? && ch[b] == ChoiceIn(g[b], y, p)
    requires Exec(g[b].stmts, y, p) == Some(z) && Exec(g2[b].stmts, st, p) == Some(z)
    requires Closed(g2) && g2[b] == g[b].(stmts := g2[b].stmts) && fuel > 0
    ensures var c := g[b].Succ(Taken(g[b].s, z));
      && 0 <= c < |g| && c in S && Walk(g, S, lv, ch, b) == Walk(g, S, lv, ch, c)
      && Run(g2, b, st, p, fuel) == Run(g2, c, z, p, fuel - 1)
  {
    hide Exec, Taken;
    Down(g, S, lv, b, Taken(g[b].s, z));
  }

  lemma {:induction false} BranchRun(g: Graph, root: Id, lv: Blocks.Levels, g2: Graph, b: Id, S: set<Id>, kept: seq<set<Atom>>,
                                      st: State, p: Packet, fuel: nat)
    requires RootOf(g, root, lv, g2, b) && b != root && Leveled(g2, lv) && lv[root] < fuel && root in S && g[b].s.Jmp?
    requires Descends(g, S, lv) && GeneratorForm.Relies(g, root, S, kept) && b in S && Exec(g[root].stmts, st, p).Some?
    requires Exec(g[b].stmts, GeneratorForm.AfterRoot(g, root, st, p), p).Some?
    ensures Run(g2, b, st, p, fuel) == Walk(g, S, lv, GeneratorForm.RunChoices(g, root, st, p), b)
  {
    hide Exec, Taken, GeneratorForm.Relies, GeneratorForm.Carried, GeneratorForm.Sets, Descends, Decider, GeneratorForm.AfterRoot,
         GeneratorForm.RunChoices, Run, Walk, Leveled, ChoiceIn, RootOf;
    RelyFacts(g, root, S, kept);
    var y := GeneratorForm.AfterRoot(g, root, st, p);
    AfterIs(g, root, st, p);
    NewRootIs(g, root, lv, g2, b);
    ChoiceIs(g, root, st, p, b);
    ExecConcat(g[root].stmts, g[b].stmts, st, p);
    var z := Exec(g[b].stmts, y, p).value;
    var side := Taken(g[b].s, z);
    var c := g[b].Succ(side);
    Down(g, S, lv, b, side);
    RootLeveled(g, root, lv, g2, b);
    LeveledBoth(g, root, lv, g2, b);
    StepOn(g, S, lv, GeneratorForm.RunChoices(g, root, st, p), g2, b, y, z, st, p, fuel);
    RunBelow(g, g2, lv, lv[b], c, z, p, fuel - 1);
    CarriedHere(g, root, S, kept, b, side);
    GeneratorForm.KeepsUnset(g[b].stmts, kept[c], y, p);
    SameAsSelf(g);
    GeneratorForm.RunIsWalk(g, g, root, S, kept, lv, st, c, z, p, fuel - 1);
  }

  lemma {:induction false} LeveledBoth(g: Graph, root: Id, lv: Blocks.Levels, g2: Graph, b: Id)
    requires RootOf(g, root, lv, g2, b) && Leveled(g2, lv)
    ensures Leveled(g, lv) && Closed(g) && Closed(g2) && |lv| == |g| == |g2|
  {
  }

  lemma {:induction false} AfterIs(g: Graph, root: Id, st: State, p: Packet)
    requires root < |g| && Exec(g[root].stmts, st, p).Some?
    ensures GeneratorForm.AfterRoot(g, root, st, p) == Exec(g[root].stmts, st, p).value
  {
    hide Exec;
  }

  lemma {:induction false} ReturnsAt(g: Graph, b: Id)
    requires ReturnsConstants(g) && b < |g|
    ensures !g[b].s.RetA?
  {
  }

  lemma {:induction false} CarriedHere(g: Graph, root: Id, S: set<Id>, kept: seq<set<Atom>>, b: Id, side: bool)
    requires GeneratorForm.Carried(g, root, S, kept) && b in S && b != root && b < |g| && g[b].s.Jmp? && 0 <= g[b].Succ(side) < |g|
    ensures !GeneratorForm.Sets(g[b].stmts, kept[g[b].Succ(side)])
  {
    hide GeneratorForm.Sets;
  }

  lemma {:induction false} BranchHasCode(g: Graph, b: Id)
    requires Backpatch.OwnFrom(g, 0) && b < |g| && g[b].s.Jmp?
    ensures g[b].stmts != []
  {
    assert SelfContained(g[b]);
    assert A_ATOM in BranchUses(g[b].s);
  }

  /** Move the root past branches that do not decide anything; the statements of the blocks skipped are dropped, but for the
      root's own. Appending to an empty list of statements is an error. */
  method OptRoot(g: Graph, root: Id, ghost lv: Blocks.Levels) returns (ok: bool, g2: Graph, root2: Id)
    requires Leveled(g, lv) && root < |g|
    ensures ok <==> g[root].stmts != [] || g[Decider(g, lv, root)].stmts == []
    ensures Backpatch.OwnFrom(g, 0) ==> ok
    ensures ok ==> RootOf(g, root, lv, g2, root2)
  {
    hide Run, Backpatch.OwnFrom;
    ok := true;
    var s := g[root].stmts;
    g2 := g[root := g[root].(stmts := [])];
    root2 := root;
    while g2[root2].s.Jmp? && g2[root2].jt == g2[root2].jf
      invariant root2 < |g| && g2 == g[root := g[root].(stmts := [])] && Decider(g, lv, root2) == Decider(g, lv, root)
      invariant root2 != root ==> lv[root2] < lv[root] && g[root].s.Jmp?
      decreases lv[root2]
    {
      root2 := g2[root2].jt;
    }
    var tmp := g2[root2].stmts;
    if tmp != [] {
      if Backpatch.OwnFrom(g, 0) { BranchHasCode(g, root); }
      if s == [] { return false, g, root; }
      s := s + tmp;
    }
    g2 := g2[root2 := g2[root2].(stmts := s)];
    if !g2[root2].s.Jmp? { g2 := g2[root2 := g2[root2].(stmts := [])]; }
    assert g2[root2] == NewRoot(g, root, root2);
  }

  // A root that sets a, a branch with one target that sets it again, and a block that tests it.
  function Skipping(a: Atom): Graph {
    [ Node(Crossings.First(a), Jmp(Jeq, K(1)), 1, 1),
      Node(Crossings.Second(a), Jmp(Jgt, K(0)), 2, 2),
      Node(Crossings.Third(a), Jmp(Jeq, K(7)), 4, 3),
      Node([], RetK(0), NIL, NIL),
      Node([], RetK(1), NIL, NIL) ]
  }

  lemma {:induction false} SkippingForm(a: Atom, P: set<Atom>)
    requires a in P
    ensures Leveled(Skipping(a), [3, 2, 1, 0, 0]) && Decider(Skipping(a), [3, 2, 1, 0, 0], 0) == 2
    ensures Crossings.CrossesOnly(Skipping(a), 0, P, false) && ReturnsConstants(Skipping(a)) && Skipping(a)[0].stmts != []
  {
    hide NodeReads, Crossings.SetBetween, Crossings.Second, Crossings.Third;
    var g, lv := Skipping(a), [3, 2, 1, 0, 0];
    assert Leveled(g, lv);
    assert Decider(g, lv, 2) == 2 && Decider(g, lv, 1) == 2;
    Crossings.CrossingReads(a);
    Crossings.SameReads(g[0], Crossings.Crossing(a)[0]);
    Crossings.SameReads(g[1], Crossings.Crossing(a)[1]);
  }

  /** For each atom, the new root of this graph tests what the block that was skipped has not set. */
  lemma {:induction false} SkippedLost(a: Atom, g2: Graph, root2: Id, st: State, p: Packet)
    requires RootOf(Skipping(a), 0, [3, 2, 1, 0, 0], g2, root2)
    ensures Leveled(Skipping(a), [3, 2, 1, 0, 0]) && Leveled(g2, [3, 2, 1, 0, 0]) && root2 < |g2|
    ensures Run(Skipping(a), 0, st, p, 4) == Return(1)
    ensures Run(g2, root2, st, p, 4) == Return(0)
  {
    hide Exec, Crossings.First, Crossings.Second, Crossings.Third, Decider;
    var g, lv := Skipping(a), [3, 2, 1, 0, 0];
    SkippingForm(a, {a});
    RootLeveled(g, 0, lv, g2, root2);
    Crossings.BlocksRun(a, st, p);
    var m := Exec(Crossings.First(a), st, p).value;
    Crossings.BlocksRun(a, m, p);
    var m2, n := Exec(Crossings.Second(a), m, p).value, Exec(Crossings.Third(a), m, p).value;
    Crossings.BlocksRun(a, m2, p);
    var m3 := Exec(Crossings.Third(a), m2, p).value;
    NothingLeft(m3, p);
    NothingLeft(n, p);
    ExecConcat(Crossings.First(a), Crossings.Third(a), st, p);
    assert Run(g, 4, m3, p, 1) == Return(1);
    assert Run(g, 2, m2, p, 2) == Return(1);
    assert Run(g, 1, m, p, 3) == Return(1);
    assert Run(g2, 3, n, p, 3) == Return(0);
  }

  // Runs from root2 of g2 end as those from root of g, unless those fault.
  ghost predicate RootSafe(g: Graph, root: Id, lv: Blocks.Levels, g2: Graph, root2: Id)
    requires Leveled(g, lv) && Leveled(g2, lv) && root < |g| && root2 < |g2|
  {
    forall st: State, p: Packet, fuel: nat :: lv[root] < fuel ==>
      Run(g, root, st, p, fuel) == Fault || Run(g2, root2, st, p, fuel) == Run(g, root, st, p, fuel)
  }

  /** Skipping root branches keeps the result of every graph in which the blocks between the root and a reader set no atoms but
      those of P. */
  ghost predicate RootSafeFor(P: set<Atom>) {
    forall g: Graph, root: Id, lv: Blocks.Levels, g2: Graph, root2: Id ::
      RootOf(g, root, lv, g2, root2) && Crossings.CrossesOnly(g, root, P, true) && ReturnsConstants(g) ==>
        Leveled(g2, lv) && root2 < |g2| && RootSafe(g, root, lv, g2, root2)
  }

  /** That is so exactly when P is empty. */
  method RootExact(P: set<Atom>)
    ensures RootSafeFor(P) <==> P == {}
  {
    hide Run, RootOf, Crossings.CrossesOnly, ReturnsConstants;
    if P == {} {
      forall g: Graph, root: Id, lv: Blocks.Levels, g2: Graph, root2: Id
        | RootOf(g, root, lv, g2, root2) && Crossings.CrossesOnly(g, root, P, true) && ReturnsConstants(g)
        ensures Leveled(g2, lv) && root2 < |g2| && Leveled(g, lv) && root < |g| && RootSafe(g, root, lv, g2, root2)
      {
        RootIsSafe(g, root, lv, g2, root2);
      }
    } else {
      var a :| a in P;
      SkippingForm(a, P);
      Crossings.CrossesMore(Skipping(a), 0, P);
      var ok, g2, root2 := OptRoot(Skipping(a), 0, [3, 2, 1, 0, 0]);
      SkippedUnsafe(a, g2, root2);
    }
  }

  lemma {:induction false} RootIsSafe(g: Graph, root: Id, lv: Blocks.Levels, g2: Graph, root2: Id)
    requires RootOf(g, root, lv, g2, root2) && Crossings.CrossesOnly(g, root, {}, true) && ReturnsConstants(g)
    ensures Leveled(g2, lv) && root2 < |g2| && Leveled(g, lv) && root < |g| && RootSafe(g, root, lv, g2, root2)
  {
    hide Run, Crossings.CrossesOnly, ReturnsConstants;
    RootLeveled(g, root, lv, g2, root2);
    forall st: State, p: Packet, fuel: nat | lv[root] < fuel
      ensures Run(g, root, st, p, fuel) == Fault || Run(g2, root2, st, p, fuel) == Run(g, root, st, p, fuel)
    {
      RootKeeps(g, root, lv, g2, root2, st, p, fuel);
    }
  }

  lemma {:induction false} SkippedUnsafe(a: Atom, g2: Graph, root2: Id)
    requires RootOf(Skipping(a), 0, [3, 2, 1, 0, 0], g2, root2)
    ensures Leveled(Skipping(a), [3, 2, 1, 0, 0]) && Leveled(g2, [3, 2, 1, 0, 0]) && root2 < |g2|
    ensures !RootSafe(Skipping(a), 0, [3, 2, 1, 0, 0], g2, root2)
  {
    hide Run, RootOf, Skipping;
    var st: State := seq(N_ATOMS, _ => 0);
    SkippedLost(a, g2, root2, st, Packet([], 0));
    SkippingSize(a);
  }

  lemma {:induction false} SkippingSize(a: Atom)
    ensures |Skipping(a)| == 5
  {
  }
}
