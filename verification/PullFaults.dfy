/** Why a pull is safe where the faults of blocks show in what they test: the blocks before it have had the value already. */
module PullFaults {
  import opened Bpf
  import opened Blocks
  import opened Reach
  import opened Dominators
  import opened InEdges
  import opened Liveness
  import opened Values
  import opened Treatments
  import opened ValueFlow
  import opened ValuePass
  import opened ValueSound
  import opened Walks
  import opened GeneratorForm
  import opened ShownFaults
  import EdgeFold
  import Pullup

  /** Whatever may fault in a branching block feeds the A it tests. */
  predicate AllFeed(g: Graph) { forall b {:trigger g[b]} :: 0 <= b < |g| && g[b].s.Jmp? ==> FaultsFeed(g[b].stmts, {A_ATOM}) }

  /** If block b faults in a run and its faults show, the number A has at its end stands for no value. */
  lemma {:induction false} FaultNumber(g: Graph, lv: Blocks.Levels, s: Snapshot, inEdges: seq<seq<EdgeId>>, root: Id, reach: set<Id>, kept: seq<set<Atom>>,
                                       init: State, p: Packet, b: Id)
    requires Finished(g, s, inEdges, false, root, reach) && Leveled(g, lv) && Generated(g, root, reach, kept)
    requires Exec(g[root].stmts, init, p).Some? && b in reach && b != root && b < |g| == |kept| && Shaped(g, s, inEdges) && Whole(s.den)
    requires NodeKnown(g, s, inEdges, b) && g[b].s.Jmp? && FaultsFeed(g[b].stmts, {A_ATOM}) && Exec(g[b].stmts, AfterRoot(g, root, init, p), p).None?
    ensures s.val[b][A_ATOM] < |s.den| && Eval(s.den[s.val[b][A_ATOM]], p) == None
  {
    hide Exec, Progress, Entering, SymExec, Eval, IsReach, Holds, Masked, DoneAt, LiveIn, Solid, AfterRoot, EntryVals, FaultsFeed, Carried;
    var entry := EntryVals(g, s, inEdges, b);
    var st := AfterRoot(g, root, init, p);
    MaskedHolds(g, lv, s, inEdges, root, reach, kept, init, p, b);
    TreatedBlock(g, s, inEdges, false, root, reach, b);
    EntryOk(g, s, inEdges, b);
    NodeFirm(g, s, inEdges, b);
    var e := SymOf(s.den, entry);
    MaskedAgrees(e, kept[b], NodeReads(g[b]));
    SymExecAgrees(g[b].stmts, BranchUses(g[b].s), e, Masked(e, kept[b]));
    var a := FaultShows(g[b].stmts, {A_ATOM}, Masked(e, kept[b]), st, p);
    assert A_ATOM in BranchUses(g[b].s);
    assert SymOf(s.den, s.val[b])[A_ATOM] == s.den[s.val[b][A_ATOM]];
  }

  /** So a block before it that has the same number faults too. */
  lemma {:induction false} FaultBefore(g: Graph, lv: Blocks.Levels, s: Snapshot, inEdges: seq<seq<EdgeId>>, root: Id, reach: set<Id>, kept: seq<set<Atom>>,
                                       init: State, p: Packet, b: Id, m: Id)
    requires Finished(g, s, inEdges, false, root, reach) && Leveled(g, lv) && Generated(g, root, reach, kept) && AllKnown(g, s, inEdges, reach)
    requires Exec(g[root].stmts, init, p).Some? && b in reach && b != root && b < |g| && g[b].s.Jmp? && FaultsFeed(g[b].stmts, {A_ATOM})
    requires m in reach && m < |g| && g[m].s.Jmp? && s.val[m][A_ATOM] == s.val[b][A_ATOM]
    requires RunChoices(g, root, init, p)[b] == End(Fault)
    ensures RunChoices(g, root, init, p)[m] == End(Fault)
  {
    hide Exec, Progress, Entering, Eval, IsReach, DoneAt, NodeKnown, FaultsFeed, Carried, NodeReads, AfterRoot;
    GeneratedRoot(g, root, reach, kept);
    AllKnownWhole(g, s, inEdges, root, reach);
    AllChoices(g, lv, s, inEdges, root, reach, kept, init, p);
    assert NodeKnown(g, s, inEdges, b);
    assert EdgeFold.ChoiceAt(g, EdgeFold.Numbers(s.val, s.oval, s.den), RunChoices(g, root, init, p), p, m);
    OnlyFaults(g[b], AfterRoot(g, root, init, p), p);
    FaultNumber(g, lv, s, inEdges, root, reach, kept, init, p, b);
  }

  lemma {:induction false} OnlyFaults(n: Node, st: State, p: Packet)
    requires ChoiceIn(n, st, p) == End(Fault)
    ensures Exec(n.stmts, st, p).None?
  {
    hide Exec;
  }

  /** A pull keeps the result of every run that does not fault, if no two blocks share what they set and read, and faults show. */
  lemma {:induction false} PullKeeps(g: Graph, g2: Graph, lv: Blocks.Levels, s: Snapshot, inEdges: seq<seq<EdgeId>>, fx: Pullup.Facts, root: Id, reach: set<Id>,
                                     kept: seq<set<Atom>>, level: seq<nat>, b: Id, common: bool, chain: seq<Id>, k: nat, init: State, p: Packet, fuel: nat)
    requires Finished(g, s, inEdges, false, root, reach) && Leveled(g, lv) && Generated(g, root, reach, kept) && AllKnown(g, s, inEdges, reach) && AllFeed(g)
    requires fx.val == s.val && fx.inEdges == inEdges && Pullup.PullOf(g, g2, fx, root, reach, level, b, common, chain, k)
    requires SameBlocks(g, g2) && Closed(g2) && Carried(g2, root, reach, kept) && |level| == |g|
    requires level[root] < fuel && Pullup.NewLevels(level, chain, k)[root] < fuel
    ensures Run(g, root, init, p, fuel) == Fault || Run(g2, root, init, p, fuel) == Run(g, root, init, p, fuel)
  {
    hide Exec, RunChoices, Generated, Carried, Progress, Entering, IsReach, AllKnown, Pullup.Found, Pullup.Pulled, Pullup.Chooses, Pullup.PullOf, Run, AllFeed,
         Descends, Relies;
    GeneratedRoot(g, root, reach, kept);
    PullSizes(g, g2, fx, root, reach, level, b, common, chain, k);
    var ch := RunChoices(g, root, init, p);
    RunChooses(g, root, reach, init, p);
    if Exec(g[root].stmts, init, p).None? {
      FaultFirst(g, root, init, p, fuel);
    } else {
      if ch[chain[|chain|-1]] == End(Fault) {
        PredsFault(g, g2, lv, s, inEdges, fx, root, reach, kept, level, b, common, chain, k, init, p);
      }
      Pullup.PulledAnyway(g, g2, fx, root, reach, level, b, common, chain, k, ch);
      SameAsSelf(g);
      WholeRun(g, g, root, reach, kept, level, init, p, fuel);
      WholeRun(g, g2, root, reach, kept, Pullup.NewLevels(level, chain, k), init, p, fuel);
    }
  }

  lemma {:induction false} PullSizes(g: Graph, g2: Graph, fx: Pullup.Facts, root: Id, S: set<Id>, level: seq<nat>, b: Id, common: bool, chain: seq<Id>, k: nat)
    requires Pullup.PullOf(g, g2, fx, root, S, level, b, common, chain, k)
    ensures k < |chain| - 1 && chain[|chain|-1] < |g| && chain[k] < |level|
  {
  }

  lemma {:induction false} FaultFirst(g: Graph, root: Id, st: State, p: Packet, fuel: nat)
    requires Closed(g) && root < |g| && fuel > 0 && Exec(g[root].stmts, st, p).None?
    ensures Run(g, root, st, p, fuel) == Fault
  {
    hide Exec;
  }

  /** All blocks that lead to the chain have the number of the pulled block. */
  lemma {:induction false} PredsFault(g: Graph, g2: Graph, lv: Blocks.Levels, s: Snapshot, inEdges: seq<seq<EdgeId>>, fx: Pullup.Facts, root: Id, reach: set<Id>,
                                      kept: seq<set<Atom>>, level: seq<nat>, b: Id, common: bool, chain: seq<Id>, k: nat, init: State, p: Packet)
    requires Finished(g, s, inEdges, false, root, reach) && Leveled(g, lv) && Generated(g, root, reach, kept) && AllKnown(g, s, inEdges, reach) && AllFeed(g)
    requires fx.val == s.val && fx.inEdges == inEdges && Pullup.PullOf(g, g2, fx, root, reach, level, b, common, chain, k)
    requires root < |g| && Exec(g[root].stmts, init, p).Some? && |chain| > 0 && chain[|chain|-1] < |g|
    requires RunChoices(g, root, init, p)[chain[|chain|-1]] == End(Fault)
    ensures forall q, side {:trigger g[q].Succ(side)} :: q in reach && q < |g| && g[q].s.Jmp? && g[q].Succ(side) == b ==> RunChoices(g, root, init, p)[q] == End(Fault)
  {
    hide Exec, RunChoices, Generated, Carried, Progress, IsReach, AllKnown, Pullup.PullOf, FaultsFeed, Entering;
    var pull := chain[|chain|-1];
    PulledNumber(g, g2, fx, root, reach, level, b, common, chain, k);
    forall q, side | q in reach && q < |g| && g[q].s.Jmp? && g[q].Succ(side) == b ensures RunChoices(g, root, init, p)[q] == End(Fault) {
      PredNumber(g, g2, fx, root, reach, level, b, common, chain, k, q, side);
      FaultBefore(g, lv, s, inEdges, root, reach, kept, init, p, pull, q);
    }
  }

  lemma {:induction false} PulledNumber(g: Graph, g2: Graph, fx: Pullup.Facts, root: Id, S: set<Id>, level: seq<nat>, b: Id, common: bool, chain: seq<Id>, k: nat)
    requires Pullup.PullOf(g, g2, fx, root, S, level, b, common, chain, k)
    ensures var pull := chain[|chain|-1]; pull in S && pull < |g| && pull != root && g[pull].s.Jmp?
  {
    hide Pullup.Pulled, Pullup.Wanted, Pullup.PredsAre, Pullup.Current, Pullup.Found;
    Pullup.FoundLast(g, root, S, level, b, common, chain, k);
    Pullup.RootOffChain(g, root, S, level, b, common, chain, k);
    assert chain[|chain|-1] in chain;
  }

  lemma {:induction false} PredNumber(g: Graph, g2: Graph, fx: Pullup.Facts, root: Id, S: set<Id>, level: seq<nat>, b: Id, common: bool, chain: seq<Id>, k: nat,
                                      q: Id, side: bool)
    requires Pullup.PullOf(g, g2, fx, root, S, level, b, common, chain, k)
    requires q in S && q < |g| && g[q].s.Jmp? && g[q].Succ(side) == b
    ensures |fx.val| == |g| && chain[|chain|-1] < |g| && fx.val[q][A_ATOM] == fx.val[chain[|chain|-1]][A_ATOM]
  {
    hide Pullup.Pulled, Pullup.Found, Pullup.FitChain, IsReach, Descends;
    var v: nat :| Pullup.PredsAre(g, fx, b, v) && Pullup.Wanted(g, fx, b, common, v, chain, k);
    assert Pullup.NumberIs(fx, chain, v, |chain| - 1);
    assert EntersAt(g, S, fx.inEdges, b, EdgeOf(g, q, side));
    var j :| 0 <= j < |fx.inEdges[b]| && fx.inEdges[b][j] == EdgeOf(g, q, side);
    assert Tail(g, EdgeOf(g, q, side)) == q;
  }
}
