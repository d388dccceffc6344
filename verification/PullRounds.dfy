/** Pulling blocks up their chains, once and for every branch, and for which graphs it is safe. */
module PullRounds {
  import opened Bpf
  import opened Blocks
  import opened Reach
  import opened Levels
  import opened Dominators
  import opened InEdges
  import opened Values
  import opened Numbering
  import opened Walks
  import opened Rounds
  import opened PullFaults
  import Backpatch
  import Crossings
  import GeneratorForm
  import Liveness
  import LostPulls
  import Pullup
  import Setters
  import ValuePass
  import ValueSound

  /** No block of g faults on packet p. */
  ghost predicate Steady(g: Graph, p: Packet) {
    forall b, st: State {:trigger Exec(g[b].stmts, st, p)} :: 0 <= b < |g| ==> Exec(g[b].stmts, st, p).Some?
  }

  // What one pull worked with: numbers, in-edges and dominators, reachable blocks and levels, and the chain it found.
  datatype PullLog = PullLog(s: ValuePass.Snapshot, fx: Pullup.Facts, reach: set<Id>, level: seq<nat>, chain: seq<Id>, k: nat)

  // The facts are those of g.
  ghost predicate FactsOf(g: Graph, root: Id, lv: Blocks.Levels, log: PullLog) {
    && Leveled(g, lv) && root < |g| && ValueSound.Finished(g, log.s, log.fx.inEdges, false, root, log.reach) && log.fx.val == log.s.val
    && ConstsDistinct(log.s.den) && Pullup.Current(g, log.fx, root, log.reach, log.level)
  }

  /** g2 is g after a pull over b, found from its facts. */
  ghost predicate PulledBy(g: Graph, root: Id, lv: Blocks.Levels, b: Id, common: bool, g2: Graph, lv2: Blocks.Levels, log: PullLog) {
    && FactsOf(g, root, lv, log) && Leveled(g2, lv2) && SameBlocks(g, g2)
    && Pullup.PullOf(g, g2, log.fx, root, log.reach, log.level, b, common, log.chain, log.k)
  }

  /** Levels, dominators, value numbers and incoming edges of a graph. */
  method PullFacts(g: Graph, root: Id, ghost lv: Blocks.Levels) returns (fx: Pullup.Facts, levels: seq<seq<Id>>, level: seq<nat>, ghost log: PullLog)
    requires Leveled(g, lv) && root < |g|
    ensures FactsOf(g, root, lv, log) && log.fx == fx && log.level == level && Leveling(g, log.reach, level, levels)
  {
    hide IsReach, Leveling, Entering, BlockDominates, Chained, Mapped, Denoted, Descends, ValuePass.Progress, Pullup.Current, ConstsDistinct;
    var leveler := new Leveler(g);
    ghost var reach := leveler.FindLevels(root, lv);
    level, levels := leveler.level, leveler.levels;
    var doms := new DominatorSets(g);
    doms.FindDom(root, level, levels, lv, reach);
    var lists := new EdgeLists(g);
    lists.FindInedges(root, level, levels, reach);
    var room := MaxValues(g);
    var table := new ValueTable(room);
    var pass := new ValuePass.Pass(g, table);
    var ok, at := pass.OptBlks(root, level, levels, lists.inEdges, false, reach);
    ValuePass.ProgressSizes(g, pass.Snap(), lists.inEdges, false, reach);
    fx := Pullup.Facts(lists.inEdges, doms.dom, pass.val);
    ReachClosed(g, root, reach);
    LevelsDescend(g, reach, level, levels);
    CurrentFacts(g, fx, root, reach, level);
    TableConsts(table.hashtbl, table.keys, table.den);
    log := PullLog(pass.Snap(), fx, reach, level, [], 0);
  }

  /** On packet p no block faults where it is moved to: its faults show in the value it tests, or there are none. */
  ghost predicate Bears(g: Graph, p: Packet) { AllFeed(g) || Steady(g, p) }

  // Runs of g2 end as those of g, unless those fault.
  ghost predicate EndsAlike(g: Graph, g2: Graph, root: Id, st: State, p: Packet, fuel: nat)
    requires Closed(g) && Closed(g2) && root < |g| && root < |g2|
  {
    Run(g, root, st, p, fuel) == Fault || Run(g2, root, st, p, fuel) == Run(g, root, st, p, fuel)
  }

  /** g2 has the blocks of g, is acyclic, and ends every run that does not fault as g does. */
  ghost predicate KeepsRuns(g: Graph, g2: Graph, root: Id, lv: Blocks.Levels, lv2: Blocks.Levels) {
    && Leveled(g, lv) && Leveled(g2, lv2) && root < |g| && SameBlocks(g, g2)
    && forall st: State, p: Packet, fuel: nat :: lv[root] < fuel && lv2[root] < fuel ==> EndsAlike(g, g2, root, st, p, fuel)
  }

  /** The same for the packets the pulled blocks bear. */
  ghost predicate KeepsPulled(g: Graph, g2: Graph, root: Id, lv: Blocks.Levels, lv2: Blocks.Levels) {
    && Leveled(g, lv) && Leveled(g2, lv2) && root < |g| && SameBlocks(g, g2)
    && forall st: State, p: Packet, fuel: nat :: Bears(g, p) && lv[root] < fuel && lv2[root] < fuel ==> EndsAlike(g, g2, root, st, p, fuel)
  }

  /** Find those facts, and pull one block up the chain from b, if b is reached and there is one that fits. The result is kept where
      no block but the root sets what another one reads, and faults show in what blocks test, or no block faults. */
  method PullRound(g: Graph, root: Id, b: Id, common: bool, ghost lv: Blocks.Levels) returns (moved: bool, g2: Graph, ghost lv2: Blocks.Levels, ghost log: PullLog)
    requires Leveled(g, lv) && root < |g| && b < |g|
    ensures FactsOf(g, root, lv, log)
    ensures moved ==> PulledBy(g, root, lv, b, common, g2, lv2, log)
    ensures !moved ==> g2 == g && lv2 == lv && |log.fx.dom| == |g|
    ensures !moved && b in log.reach && g[b].s.Jmp? ==> Pullup.NothingWanted(g, log.fx, b, common)
    ensures SameBlocks(g, g2) && Leveled(g2, lv2) && FormKept(g, g2)
    ensures Crossings.SharesOnly(g, root, {}, false) ==> KeepsPulled(g, g2, root, lv, lv2)
  {
    hide IsReach, Pullup.PullOf, Pullup.PullSafe, Pullup.Current, Pullup.NothingWanted, Run, Leveling, ValueSound.Finished, ConstsDistinct, FormKept,
         Crossings.SharesOnly, KeepsPulled, Leveled;
    var fx, level, levels;
    fx, levels, level, log := PullFacts(g, root, lv);
    moved, g2, lv2 := false, g, lv;
    SameAsSelf(g);
    SameForm(g, g);
    PulledSelf(g, root, lv);
    LevelSizes(g, log.reach, level, levels);
    CurrentSizes(g, fx, root, log.reach, level);
    Listed(g, log.reach, level, levels, b);
    if !g[b].s.Jmp? || level[b] >= |g| || b !in levels[level[b]] { return; }
    var puller := new Pullup.Puller(g, fx);
    ghost var chain, k;
    if common {
      moved, chain, k := puller.OrPullup(b, root, log.reach, level);
    } else {
      moved, chain, k := puller.AndPullup(b, root, log.reach, level);
    }
    if !moved { return; }
    g2 := puller.node;
    log := log.(chain := chain, k := k);
    Pullup.PullOfSafe(g, g2, fx, root, log.reach, level, b, common, chain, k);
    PullSizes(g, g2, fx, root, log.reach, level, b, common, chain, k);
    lv2 := BothLevels(g, g2, root, lv, log.reach, level, Pullup.NewLevels(level, chain, k), chain[|chain|-1]);
    SafeSame(g, g2, root, log.reach, level, Pullup.NewLevels(level, chain, k), chain[|chain|-1]);
    SameForm(g, g2);
    if Crossings.SharesOnly(g, root, {}, false) { PullKept(g, root, lv, b, common, g2, lv2, log); }
  }

  lemma {:induction false} SafeSame(g: Graph, g2: Graph, root: Id, reach: set<Id>, level: seq<nat>, level2: seq<nat>, pull: Id)
    requires Pullup.PullSafe(g, g2, reach, level, level2, root, pull)
    ensures SameBlocks(g, g2)
  {
  }

  lemma {:induction false} CurrentSizes(g: Graph, fx: Pullup.Facts, root: Id, reach: set<Id>, level: seq<nat>)
    requires Pullup.Current(g, fx, root, reach, level)
    ensures |fx.dom| == |g|
  {
  }

  /** Such a pull keeps results. */
  lemma {:induction false} PullKept(g: Graph, root: Id, lv: Blocks.Levels, b: Id, common: bool, g2: Graph, lv2: Blocks.Levels, log: PullLog)
    requires PulledBy(g, root, lv, b, common, g2, lv2, log) && Crossings.SharesOnly(g, root, {}, false)
    ensures KeepsPulled(g, g2, root, lv, lv2)
  {
    hide GeneratorForm.Generated, GeneratorForm.Relies, GeneratorForm.Carried, GeneratorForm.AllKnown, Run, Steady, AllFeed, ValuePass.Progress, Entering, IsReach,
         Crossings.SharesOnly, Crossings.CrossesOnly, Pullup.PullOf, Pullup.PullSafe, Pullup.Current, EndsAlike;
    var reach, level, fx := log.reach, log.level, log.fx;
    PullSizes(g, g2, fx, root, reach, level, b, common, log.chain, log.k);
    var pull, level2 := log.chain[|log.chain|-1], Pullup.NewLevels(level, log.chain, log.k);
    Pullup.PullOfSafe(g, g2, fx, root, reach, level, b, common, log.chain, log.k);
    CurrentReach(g, fx, root, reach, level);
    Crossings.NoneShared(g, root, reach);
    Crossings.SharesCrosses(g, root, {}, false);
    Crossings.NoneCrossesKnown(g, lv, log.s, fx.inEdges, root, reach);
    var kept := Crossings.RootAlone(g, root);
    Crossings.AloneCarried(g, g2, root, reach);
    SafeSizes(g, g2, root, reach, level, level2, pull);
    forall st: State, p: Packet, fuel: nat | Bears(g, p) && lv[root] < fuel && lv2[root] < fuel ensures EndsAlike(g, g2, root, st, p, fuel) {
      var enough := fuel + level[root] + level2[root] + 1;
      if AllFeed(g) {
        PullKeeps(g, g2, lv, log.s, fx.inEdges, fx, root, reach, kept, level, b, common, log.chain, log.k, st, p, enough);
      } else {
        NoFaultChoice(g, pull, GeneratorForm.AfterRoot(g, root, st, p), p);
        GeneratorForm.PulledRun(g, g2, root, reach, kept, level, level2, pull, st, p, enough);
      }
      LessFuel(g, g2, root, lv, lv2, st, p, fuel, enough);
    }
  }

  lemma {:induction false} SafeSizes(g: Graph, g2: Graph, root: Id, reach: set<Id>, level: seq<nat>, level2: seq<nat>, pull: Id)
    requires Pullup.PullSafe(g, g2, reach, level, level2, root, pull)
    ensures |level| == |level2| == |g| == |g2| && pull < |g|
  {
    hide Pullup.PulledKeeps;
  }

  lemma {:induction false} LessFuel(g: Graph, g2: Graph, root: Id, lv: Blocks.Levels, lv2: Blocks.Levels, st: State, p: Packet, fuel: nat, enough: nat)
    requires Leveled(g, lv) && Leveled(g2, lv2) && root < |g| == |g2| && lv[root] < fuel <= enough && lv2[root] < fuel
    requires Run(g, root, st, p, enough) == Fault || Run(g2, root, st, p, enough) == Run(g, root, st, p, enough)
    ensures EndsAlike(g, g2, root, st, p, fuel)
  {
    hide Run;
    RunTerminates(g, lv, root, st, p, fuel);
    RunTerminates(g, lv, root, st, p, enough);
    RunTerminates(g2, lv2, root, st, p, fuel);
    RunTerminates(g2, lv2, root, st, p, enough);
  }

  /** Where every block sets what it reads, nothing is shared; so it is with every generated graph. */
  lemma {:induction false} OwnSharesNothing(g: Graph, root: Id)
    requires Backpatch.OwnFrom(g, 0) && Closed(g) && root < |g|
    ensures Crossings.SharesOnly(g, root, {}, false)
  {
    hide Liveness.LiveIn, Leads, Crossings.SetElsewhere;
    forall b | 0 <= b < |g| ensures Liveness.NodeReads(g[b]) == {} {
      assert Liveness.SelfContained(g[b]);
    }
  }

  /** A pulled graph shares no more than the original did. */
  lemma {:induction false} SharesStill(g: Graph, root: Id, lv: Blocks.Levels, b: Id, common: bool, g2: Graph, lv2: Blocks.Levels, log: PullLog)
    requires PulledBy(g, root, lv, b, common, g2, lv2, log) && Crossings.SharesOnly(g, root, {}, false)
    ensures Crossings.SharesOnly(g2, root, {}, false)
  {
    hide Liveness.NodeReads, Setters.Defs, Leads, Pullup.PullOf, Pullup.PullSafe, Pullup.Current, ValueSound.Finished, IsReach, ConstsDistinct;
    var reach := log.reach;
    PullSizes(g, g2, log.fx, root, reach, log.level, b, common, log.chain, log.k);
    Pullup.PullOfSafe(g, g2, log.fx, root, reach, log.level, b, common, log.chain, log.k);
    CurrentReach(g, log.fx, root, reach, log.level);
    SameReadsAll(g, g2);
    forall c: Id | c < |g2| && Leads(g2, root, c) ensures Leads(g, root, c) {
      StaysReached(g, g2, root, reach, log.level, Pullup.NewLevels(log.level, log.chain, log.k), log.chain[|log.chain|-1], c);
      ReachLeads(g, root, reach, c);
    }
    forall a: Bpf.Atom | Crossings.SetElsewhere(g2, root, a) ensures Crossings.SetElsewhere(g, root, a) {
      var x: Id :| x < |g2| && x != root && Leads(g2, root, x) && a in Setters.Defs(g2[x].stmts);
      assert Leads(g, root, x);
    }
  }

  lemma {:induction false} SameReadsAll(g: Graph, g2: Graph)
    requires SameBlocks(g, g2)
    ensures forall c {:trigger g2[c]} :: 0 <= c < |g| ==> Liveness.NodeReads(g2[c]) == Liveness.NodeReads(g[c]) && g2[c].stmts == g[c].stmts
  {
    hide Liveness.NodeReads;
    forall c | 0 <= c < |g| ensures Liveness.NodeReads(g2[c]) == Liveness.NodeReads(g[c]) && g2[c].stmts == g[c].stmts {
      Crossings.SameReads(g2[c], g[c]);
    }
  }

  lemma {:induction false} StaysReached(g: Graph, g2: Graph, root: Id, reach: set<Id>, level: seq<nat>, level2: seq<nat>, pull: Id, c: Id)
    requires Pullup.PullSafe(g, g2, reach, level, level2, root, pull) && Leads(g2, root, c)
    ensures c in reach
  {
    hide Pullup.PulledKeeps;
    var sides :| Follows(g2, root, sides, c);
    FollowsIn(g2, reach, level2, root, sides, c);
  }

  lemma {:induction false} FollowsIn(g: Graph, S: set<Id>, level: seq<nat>, b: Id, sides: seq<bool>, c: Id)
    requires Descends(g, S, level) && Closed(g) && b in S && b < |g| && Follows(g, b, sides, c)
    ensures c in S
    decreases |sides|
  {
    if |sides| > 0 {
      Down(g, S, level, b, sides[0]);
      FollowsIn(g, S, level, g[b].Succ(sides[0]), sides[1..], c);
    }
  }

  // A block to pull up over, and whether it is the true branch that the chain shares.
  datatype Request = Request(b: Id, common: bool)

  /** What one request does, by facts of g: the pull if there is a chain for it, and nothing if there is none. */
  ghost predicate Answered(g: Graph, root: Id, lv: Blocks.Levels, r: Request, g2: Graph, lv2: Blocks.Levels, log: PullLog) {
    && FactsOf(g, root, lv, log) && r.b < |g|
    && (PulledBy(g, root, lv, r.b, r.common, g2, lv2, log)
        || (g2 == g && lv2 == lv && |log.fx.dom| == |g|
            && (r.b in log.reach && g[r.b].s.Jmp? ==> Pullup.NothingWanted(g, log.fx, r.b, r.common))))
  }

  /** g2 is what the requests, in their order, make of g. */
  ghost predicate AllAnswered(g: Graph, root: Id, lv: Blocks.Levels, rs: seq<Request>, g2: Graph, lv2: Blocks.Levels)
    decreases |rs|
  {
    if |rs| == 0 then g2 == g && lv2 == lv
    else exists g1, lv1, log {:trigger Answered(g1, root, lv1, rs[|rs|-1], g2, lv2, log)} ::
      AllAnswered(g, root, lv, rs[..|rs|-1], g1, lv1) && Answered(g1, root, lv1, rs[|rs|-1], g2, lv2, log)
  }

  // Every block of the list, both ways.
  function BothWays(l: seq<Id>): seq<Request>
    decreases |l|
  {
    if |l| == 0 then [] else var b := l[|l|-1]; BothWays(l[..|l|-1]) + [Request(b, true), Request(b, false)]
  }

  /** The blocks of levels 1 to i, the lowest level first. */
  function Requests(levels: seq<seq<Id>>, i: nat): seq<Request>
    requires i < |levels|
  {
    if i == 0 then [] else Requests(levels, i - 1) + BothWays(levels[i])
  }

  /** g2 is what pulling up over every branch reached makes of g. */
  ghost predicate SweepOf(g: Graph, root: Id, lv: Blocks.Levels, reach: set<Id>, level: seq<nat>, levels: seq<seq<Id>>, g2: Graph, lv2: Blocks.Levels) {
    && IsReach(g, root, reach) && Leveling(g, reach, level, levels) && root < |g| && level[root] < |g|
    && AllAnswered(g, root, lv, Requests(levels, level[root]), g2, lv2)
  }

  lemma {:induction false} AnsweredNext(g: Graph, g1: Graph, g2: Graph, root: Id, lv: Blocks.Levels, lv1: Blocks.Levels, lv2: Blocks.Levels,
                                        rs: seq<Request>, r: Request, log: PullLog)
    requires AllAnswered(g, root, lv, rs, g1, lv1) && Answered(g1, root, lv1, r, g2, lv2, log)
    ensures AllAnswered(g, root, lv, rs + [r], g2, lv2)
  {
    hide Answered;
    var all := rs + [r];
    assert all[..|all|-1] == rs && all[|all|-1] == r;
    assert Answered(g1, root, lv1, all[|all|-1], g2, lv2, log);
  }

  lemma {:induction false} BothWaysNext(pre: seq<Request>, l: seq<Id>, j: nat)
    requires j < |l|
    ensures pre + BothWays(l[..j+1]) == (pre + BothWays(l[..j]) + [Request(l[j], true)]) + [Request(l[j], false)]
  {
    assert l[..j+1][..j] == l[..j];
  }

  /** Pull up over every branch of the graph, bottom level first, both ways. */
  method PullSweep(g: Graph, root: Id, ghost lv: Blocks.Levels)
    returns (g2: Graph, ghost lv2: Blocks.Levels, ghost reach: set<Id>, level: seq<nat>, levels: seq<seq<Id>>)
    requires Leveled(g, lv) && root < |g|
    ensures SweepOf(g, root, lv, reach, level, levels, g2, lv2)
    ensures Crossings.SharesOnly(g, root, {}, false) ==> KeepsPulled(g, g2, root, lv, lv2) && Crossings.SharesOnly(g2, root, {}, false)
  {
    hide IsReach, Run, KeepsPulled, Crossings.SharesOnly, AllAnswered, Leveling, BothWays;
    var leveler := new Leveler(g);
    reach := leveler.FindLevels(root, lv);
    level, levels := leveler.level, leveler.levels;
    LevelSizes(g, reach, level, levels);
    RootLevel(g, root, reach, level, levels);
    g2, lv2 := g, lv;
    PulledSelf(g, root, lv);
    NoneAnswered(g, root, lv);
    var i := 1;
    while i <= level[root]
      invariant 1 <= i <= level[root] + 1 && |g2| == |g| && Leveled(g2, lv2) && AllAnswered(g, root, lv, Requests(levels, i - 1), g2, lv2)
      invariant Crossings.SharesOnly(g, root, {}, false) ==> KeepsPulled(g, g2, root, lv, lv2) && Crossings.SharesOnly(g2, root, {}, false)
    {
      var j := 0;
      ghost var before := Requests(levels, i - 1);
      NoneMore(before, levels[i]);
      while j < |levels[i]|
        invariant 0 <= j <= |levels[i]| && |g2| == |g| && Leveled(g2, lv2) && AllAnswered(g, root, lv, before + BothWays(levels[i][..j]), g2, lv2)
        invariant Crossings.SharesOnly(g, root, {}, false) ==> KeepsPulled(g, g2, root, lv, lv2) && Crossings.SharesOnly(g2, root, {}, false)
      {
        var b := levels[i][j];
        LevelWithin(g, reach, level, levels, i, j);
        g2, lv2 := PullOnce(g, g2, root, Request(b, true), lv, lv2, before + BothWays(levels[i][..j]));
        g2, lv2 := PullOnce(g, g2, root, Request(b, false), lv, lv2, before + BothWays(levels[i][..j]) + [Request(b, true)]);
        BothWaysNext(before, levels[i], j);
        j := j + 1;
      }
      assert levels[i][..j] == levels[i];
      i := i + 1;
    }
  }

  lemma {:induction false} NoneAnswered(g: Graph, root: Id, lv: Blocks.Levels)
    ensures AllAnswered(g, root, lv, [], g, lv)
  {
  }

  lemma {:induction false} NoneMore(pre: seq<Request>, l: seq<Id>)
    ensures pre + BothWays(l[..0]) == pre
  {
  }

  lemma {:induction false} RootLevel(g: Graph, root: Id, reach: set<Id>, level: seq<nat>, levels: seq<seq<Id>>)
    requires IsReach(g, root, reach) && Leveling(g, reach, level, levels)
    ensures root < |g| && level[root] < |g|
  {
    ReachClosed(g, root, reach);
  }

  lemma {:induction false} LevelWithin(g: Graph, reach: set<Id>, level: seq<nat>, levels: seq<seq<Id>>, i: nat, j: nat)
    requires Leveling(g, reach, level, levels) && i < |levels| && j < |levels[i]|
    ensures levels[i][j] < |g|
  {
  }

  method PullOnce(ghost g: Graph, g1: Graph, root: Id, r: Request, ghost lv: Blocks.Levels, ghost lv1: Blocks.Levels, ghost rs: seq<Request>)
    returns (g2: Graph, ghost lv2: Blocks.Levels)
    requires Leveled(g1, lv1) && root < |g1| && r.b < |g1| && AllAnswered(g, root, lv, rs, g1, lv1)
    ensures |g2| == |g1| && Leveled(g2, lv2) && AllAnswered(g, root, lv, rs + [r], g2, lv2)
    ensures KeepsPulled(g, g1, root, lv, lv1) && Crossings.SharesOnly(g1, root, {}, false) ==>
      KeepsPulled(g, g2, root, lv, lv2) && Crossings.SharesOnly(g2, root, {}, false)
  {
    hide Run, PulledBy, FactsOf, Pullup.NothingWanted, Crossings.SharesOnly, FormKept, Bears, EndsAlike, AllAnswered, KeepsPulled, Leveled;
    var moved;
    ghost var log;
    moved, g2, lv2, log := PullRound(g1, root, r.b, r.common, lv1);
    AnsweredNext(g, g1, g2, root, lv, lv1, lv2, rs, r, log);
    if KeepsPulled(g, g1, root, lv, lv1) && Crossings.SharesOnly(g1, root, {}, false) {
      if moved { SharesStill(g1, root, lv1, r.b, r.common, g2, lv2, log); }
      PulledThen(g, g1, g2, root, lv, lv1, lv2);
    }
  }

  lemma {:induction false} PulledSelf(g: Graph, root: Id, lv: Blocks.Levels)
    requires Leveled(g, lv) && root < |g|
    ensures KeepsPulled(g, g, root, lv, lv)
  {
    hide Bears, Run;
    SameAsSelf(g);
  }

  lemma {:induction false} PulledThen(g: Graph, g1: Graph, g2: Graph, root: Id, lv: Blocks.Levels, lv1: Blocks.Levels, lv2: Blocks.Levels)
    requires KeepsPulled(g, g1, root, lv, lv1) && KeepsPulled(g1, g2, root, lv1, lv2)
    ensures KeepsPulled(g, g2, root, lv, lv2)
  {
    hide Bears, Run, Leveled;
    LeveledClosed(g, lv);
    LeveledClosed(g1, lv1);
    LeveledClosed(g2, lv2);
    forall st: State, p: Packet, fuel: nat | Bears(g, p) && lv[root] < fuel && lv2[root] < fuel ensures EndsAlike(g, g2, root, st, p, fuel) {
      var enough := fuel + lv1[root] + 1;
      BearsSame(g, g1, p);
      assert EndsAlike(g, g1, root, st, p, enough) && EndsAlike(g1, g2, root, st, p, enough);
      LessFuel(g, g2, root, lv, lv2, st, p, fuel, enough);
    }
  }

  lemma {:induction false} BearsSame(g: Graph, g2: Graph, p: Packet)
    requires Bears(g, p) && SameBlocks(g, g2)
    ensures Bears(g2, p)
  {
    hide Steady;
    if Steady(g, p) { SteadySame(g, g2, p); } else { FeedSame(g, g2); }
  }

  lemma {:induction false} FeedSame(g: Graph, g2: Graph)
    requires AllFeed(g) && SameBlocks(g, g2)
    ensures AllFeed(g2)
  {
    forall b | 0 <= b < |g2| ensures g2[b].s == g[b].s && g2[b].stmts == g[b].stmts {
    }
  }

  lemma {:induction false} LeveledClosed(g: Graph, lv: Blocks.Levels)
    requires Leveled(g, lv)
    ensures Closed(g) && |lv| == |g|
  {
  }

  lemma {:induction false} SteadySame(g: Graph, g2: Graph, p: Packet)
    requires Steady(g, p) && SameBlocks(g, g2)
    ensures Steady(g2, p)
  {
    hide Exec;
    forall b, st: State | 0 <= b < |g2| ensures Exec(g2[b].stmts, st, p).Some? {
      assert Exec(g[b].stmts, st, p).Some?;
    }
  }

  lemma {:induction false} LevelSizes(g: Graph, reach: set<Id>, level: seq<nat>, levels: seq<seq<Id>>)
    requires Leveling(g, reach, level, levels)
    ensures |level| == |levels| == |g|
  {
  }

  lemma {:induction false} Listed(g: Graph, reach: set<Id>, level: seq<nat>, levels: seq<seq<Id>>, b: Id)
    requires Leveling(g, reach, level, levels) && b < |g|
    ensures b in reach <==> level[b] < |g| && b in levels[level[b]]
  {
    if level[b] < |g| { assert OnLevel(levels, level, reach, level[b], b); }
  }

  lemma {:induction false} CurrentFacts(g: Graph, fx: Pullup.Facts, root: Id, reach: set<Id>, level: seq<nat>)
    requires Closed(g) && IsReach(g, root, reach) && Descends(g, reach, level)
    requires |fx.inEdges| == |fx.dom| == |fx.val| == |g| && Entering(g, reach, fx.inEdges)
    requires forall c, x :: c in reach && 0 <= x < |g| ==> (x in fx.dom[c] <==> BlockDominates(g, root, x, c))
    ensures Pullup.Current(g, fx, root, reach, level)
  {
    hide IsReach, Descends, Entering, BlockDominates;
  }

  lemma {:induction false} CurrentReach(g: Graph, fx: Pullup.Facts, root: Id, reach: set<Id>, level: seq<nat>)
    requires Pullup.Current(g, fx, root, reach, level)
    ensures IsReach(g, root, reach)
  {
  }

  lemma {:induction false} ReachClosed(g: Graph, root: Id, reach: set<Id>)
    requires IsReach(g, root, reach)
    ensures ClosedUnder(g, reach) && root in reach
  {
  }

  lemma {:induction false} LevelsDescend(g: Graph, reach: set<Id>, level: seq<nat>, levels: seq<seq<Id>>)
    requires Leveling(g, reach, level, levels) && ClosedUnder(g, reach) && Closed(g)
    ensures Descends(g, reach, level)
  {
    forall b | b in reach ensures b < |g| && b < |level| && DownAt(g, reach, level, b) {
      assert LevelAt(g, level, b);
    }
  }

  /** Levels of the whole pulled graph: the blocks that are not reached come above the others. */
  lemma {:induction false} BothLevels(g: Graph, g2: Graph, root: Id, lv: Blocks.Levels, reach: set<Id>, level: seq<nat>, level2: seq<nat>, pull: Id)
    returns (lv2: Blocks.Levels)
    requires Leveled(g, lv) && Pullup.PullSafe(g, g2, reach, level, level2, root, pull)
    ensures Leveled(g2, lv2) && root < |g2| == |g|
  {
    var top := Largest(level2);
    lv2 := seq(|g2|, b requires 0 <= b < |g2| => if b in reach then level2[b] else top + 1 + lv[b]);
    forall b | 0 <= b < |g2| && g2[b].s.Jmp? ensures lv2[g2[b].jt] < lv2[b] && lv2[g2[b].jf] < lv2[b] {
      if b in reach {
        Down(g2, reach, level2, b, true);
        Down(g2, reach, level2, b, false);
      } else {
        assert g2[b] == g[b];
      }
    }
  }

  ghost function Largest(xs: seq<nat>): (r: nat)
    ensures forall i :: 0 <= i < |xs| ==> xs[i] <= r
  {
    if |xs| == 0 then 0 else var r := Largest(xs[1..]); assert forall i :: 0 < i < |xs| ==> xs[i] == xs[1..][i-1]; if xs[0] > r then xs[0] else r
  }

  lemma {:induction false} NoFaultChoice(g: Graph, b: Id, st: State, p: Packet)
    requires Steady(g, p) && b < |g|
    ensures ChoiceIn(g[b], st, p) != End(Fault)
  {
  }

  /** Pulls keep the result of every graph in which blocks other than the root set no atoms of P that one of them reads, that
      reads nothing unset, if not unset, and in which faults show in what blocks test, if they are not hidden. */
  ghost predicate PullSafeFor(P: set<Atom>, unset: bool, hidden: bool) {
    forall g: Graph, root: Id, lv: Blocks.Levels, b: Id, common: bool, g2: Graph, lv2: Blocks.Levels, log: PullLog ::
      PulledBy(g, root, lv, b, common, g2, lv2, log) && Crossings.SharesOnly(g, root, P, unset) && (hidden || AllFeed(g)) ==>
        KeepsRuns(g, g2, root, lv, lv2)
  }

  /** That is so exactly when P is empty, nothing unset may be read and no fault hidden. */
  method PullExact(P: set<Atom>, unset: bool, hidden: bool)
    ensures PullSafeFor(P, unset, hidden) <==> P == {} && !unset && !hidden
  {
    hide Run, PulledBy, Crossings.SharesOnly, KeepsRuns, KeepsPulled, AllFeed;
    var g2;
    ghost var lv2, log;
    if hidden {
      Crossings.SharesMore(LostPulls.Hiding(), 0, P, unset) by { LostPulls.HidingForm(P); }
      g2, lv2, log := HidingPulled();
    } else if unset {
      LostPulls.LooseForm(P);
      g2, lv2, log := LoosePulled();
    } else if P == {} {
      forall g: Graph, root: Id, lv: Blocks.Levels, b: Id, common: bool, g2: Graph, lv2: Blocks.Levels, log: PullLog
        | PulledBy(g, root, lv, b, common, g2, lv2, log) && Crossings.SharesOnly(g, root, P, unset) && (hidden || AllFeed(g))
        ensures KeepsRuns(g, g2, root, lv, lv2)
      {
        PullKept(g, root, lv, b, common, g2, lv2, log);
        AllBorne(g, g2, root, lv, lv2);
      }
    } else {
      var a :| a in P;
      LostPulls.PreparedForm(a, P);
      g2, lv2, log := PreparedPulled(a);
    }
  }

  lemma {:induction false} AllBorne(g: Graph, g2: Graph, root: Id, lv: Blocks.Levels, lv2: Blocks.Levels)
    requires KeepsPulled(g, g2, root, lv, lv2) && AllFeed(g)
    ensures KeepsRuns(g, g2, root, lv, lv2)
  {
    hide Run, AllFeed, Steady;
    forall st: State, p: Packet, fuel: nat | lv[root] < fuel && lv2[root] < fuel ensures EndsAlike(g, g2, root, st, p, fuel) {
      assert Bears(g, p);
    }
  }

  /** The round pulls the third of three blocks up, if the numbers of the first and the third are the same. */
  method PullThree(g: Graph) returns (g2: Graph, ghost lv2: Blocks.Levels, ghost log: PullLog)
    requires LostPulls.Jumps(g) && Leveled(g, [3, 2, 1, 0, 0])
    requires forall s, inEdges, reach :: ValueSound.Finished(g, s, inEdges, false, 0, reach) && ConstsDistinct(s.den) ==>
      |s.val| == |g| && s.val[0][A_ATOM] == s.val[2][A_ATOM] != s.val[1][A_ATOM]
    ensures PulledBy(g, 0, [3, 2, 1, 0, 0], 1, true, g2, lv2, log) && LostPulls.PulledEdges(g, g2) && Leveled(g2, lv2) && |g2| == 5
  {
    hide Pullup.PullOf, Pullup.Current, Pullup.Wanted, Pullup.PredsAre, ValueSound.Finished, ConstsDistinct, Crossings.SharesOnly, FormKept, Run, LostPulls.Jumps;
    LostPulls.ThreeSize(g);
    var moved;
    moved, g2, lv2, log := PullRound(g, 0, 1, true, [3, 2, 1, 0, 0]);
    LostPulls.ThreeWanted(g, log.fx, log.reach, log.level);
    ThreeJumps(g);
    if !moved { assert false; }
    LostPulls.ThreePulled(g, g2, log.fx, log.reach, log.level, log.chain, log.k);
  }

  lemma {:induction false} ThreeJumps(g: Graph)
    requires LostPulls.Jumps(g)
    ensures g[1].s.Jmp?
  {
  }

  /** A run that does not fault ends otherwise. */
  lemma {:induction false} NotKept(g: Graph, g2: Graph, lv: Blocks.Levels, lv2: Blocks.Levels, st: State, p: Packet, fuel: nat)
    requires Leveled(g, lv) && Leveled(g2, lv2) && 0 < |g| && 0 < |g2| && lv[0] < fuel
    requires Run(g, 0, st, p, fuel) != Fault && Run(g2, 0, st, p, fuel) != Run(g, 0, st, p, fuel) && Run(g2, 0, st, p, fuel) != Lost
    ensures !KeepsRuns(g, g2, 0, lv, lv2)
  {
    hide Run;
    var enough := fuel + lv2[0] + 1;
    RunTerminates(g, lv, 0, st, p, fuel);
    RunTerminates(g, lv, 0, st, p, enough);
    Ended(g2, 0, st, p, fuel, enough);
    assert SameBlocks(g, g2) ==> !EndsAlike(g, g2, 0, st, p, enough);
  }

  lemma {:induction false} Ended(g: Graph, b: Id, st: State, p: Packet, fuel: nat, more: nat)
    requires Closed(g) && b < |g| && Run(g, b, st, p, fuel) != Lost && fuel <= more
    ensures Run(g, b, st, p, more) == Run(g, b, st, p, fuel)
    decreases fuel
  {
    hide Exec, Taken;
    if fuel > 0 && g[b].s.Jmp? && Exec(g[b].stmts, st, p).Some? {
      var m := Exec(g[b].stmts, st, p).value;
      Ended(g, g[b].Succ(Taken(g[b].s, m)), m, p, fuel - 1, more - 1);
    }
  }

  /** For every atom, a pull over a graph in which one block sets it for another changes the result. */
  method PreparedPulled(a: Atom) returns (g2: Graph, ghost lv2: Blocks.Levels, ghost log: PullLog)
    ensures PulledBy(LostPulls.Prepared(a), 0, [3, 2, 1, 0, 0], 1, true, g2, lv2, log)
    ensures !KeepsRuns(LostPulls.Prepared(a), g2, 0, [3, 2, 1, 0, 0], lv2)
  {
    hide Run, LostPulls.Prepared, LostPulls.PulledEdges, LostPulls.Jumps, ValueSound.Finished, ConstsDistinct, KeepsRuns, Crossings.SharesOnly, AllFeed, PulledBy;
    var g := LostPulls.Prepared(a);
    PreparedJumps(a);
    forall s, inEdges, reach | ValueSound.Finished(g, s, inEdges, false, 0, reach) && ConstsDistinct(s.den)
      ensures |s.val| == |g| && s.val[0][A_ATOM] == s.val[2][A_ATOM] != s.val[1][A_ATOM]
    {
      LostPulls.PreparedNumbers(a, s, inEdges, reach);
    }
    g2, lv2, log := PullThree(g);
    LeveledClosed(g2, lv2);
    ghost var st: State := seq(N_ATOMS, _ => 0);
    LostPulls.PreparedLost(a, g2, st, Packet([], 0));
    NotKept(g, g2, [3, 2, 1, 0, 0], lv2, st, Packet([], 0), 4);
  }

  lemma {:induction false} PreparedJumps(a: Atom)
    ensures LostPulls.Jumps(LostPulls.Prepared(a)) && Leveled(LostPulls.Prepared(a), [3, 2, 1, 0, 0]) && |LostPulls.Prepared(a)| == 5
  {
  }

  /** A pull of a block whose fault does not show rejects a packet that was accepted. */
  method HidingPulled() returns (g2: Graph, ghost lv2: Blocks.Levels, ghost log: PullLog)
    ensures PulledBy(LostPulls.Hiding(), 0, [3, 2, 1, 0, 0], 1, true, g2, lv2, log)
    ensures !KeepsRuns(LostPulls.Hiding(), g2, 0, [3, 2, 1, 0, 0], lv2)
  {
    hide Run, LostPulls.PulledEdges, LostPulls.Jumps, ValueSound.Finished, ConstsDistinct, KeepsRuns, Crossings.SharesOnly, PulledBy;
    var g := LostPulls.Hiding();
    assert LostPulls.Jumps(g) && Leveled(g, [3, 2, 1, 0, 0]) by { LostPulls.HidingForm({}); HidingJumps(); }
    forall s, inEdges, reach | ValueSound.Finished(g, s, inEdges, false, 0, reach) && ConstsDistinct(s.den)
      ensures |s.val| == |g| && s.val[0][A_ATOM] == s.val[2][A_ATOM] != s.val[1][A_ATOM]
    {
      LostPulls.HidingNumbers(s, inEdges, reach);
    }
    g2, lv2, log := PullThree(g);
    LeveledClosed(g2, lv2);
    ghost var st: State := seq(N_ATOMS, _ => 0);
    LostPulls.HidingLost(g2, st);
    NotKept(g, g2, [3, 2, 1, 0, 0], lv2, st, Packet([0, 2], 2), 4);
  }

  lemma {:induction false} HidingJumps()
    ensures LostPulls.Jumps(LostPulls.Hiding()) && LostPulls.Jumps(LostPulls.Loose())
  {
  }

  /** So does a pull of a block that loads at a word nobody has set. */
  method LoosePulled() returns (g2: Graph, ghost lv2: Blocks.Levels, ghost log: PullLog)
    ensures PulledBy(LostPulls.Loose(), 0, [3, 2, 1, 0, 0], 1, true, g2, lv2, log)
    ensures !KeepsRuns(LostPulls.Loose(), g2, 0, [3, 2, 1, 0, 0], lv2)
  {
    hide Run, LostPulls.PulledEdges, LostPulls.Jumps, ValueSound.Finished, ConstsDistinct, KeepsRuns, Crossings.SharesOnly, AllFeed, PulledBy;
    var g := LostPulls.Loose();
    assert LostPulls.Jumps(g) && Leveled(g, [3, 2, 1, 0, 0]) by { LostPulls.LooseForm({}); HidingJumps(); }
    forall s, inEdges, reach | ValueSound.Finished(g, s, inEdges, false, 0, reach) && ConstsDistinct(s.den)
      ensures |s.val| == |g| && s.val[0][A_ATOM] == s.val[2][A_ATOM] != s.val[1][A_ATOM]
    {
      LostPulls.LooseNumbers(s, inEdges, reach);
    }
    g2, lv2, log := PullThree(g);
    LeveledClosed(g2, lv2);
    ghost var st: State := seq(N_ATOMS, _ => 0);
    st := st[1 := 5];
    LostPulls.LooseLost(g2, st);
    NotKept(g, g2, [3, 2, 1, 0, 0], lv2, st, Packet([0], 1), 4);
  }
}
