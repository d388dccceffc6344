/** One optimizer pass as a round over a whole graph: what every round keeps, dead stores, and interning. */
module Rounds {
  import opened Bpf
  import opened Blocks
  import opened Flatten
  import opened Reach
  import opened Levels
  import opened Dominators
  import opened Walks
  import Backpatch
  import Cleanup
  import DeadStores
  import GeneratorForm
  import Intern
  import Liveness
  import ValuePass

  /** Runs of g2 from root end as those of g do, unless those fault. */
  ghost predicate KeepsResults(g: Graph, g2: Graph, root: Id, lv: Blocks.Levels) {
    && Leveled(g, lv) && Leveled(g2, lv) && root < |g| == |g2|
    && forall st: State, p: Packet, fuel: nat :: lv[root] < fuel ==>
         Run(g, root, st, p, fuel) == Fault || Run(g2, root, st, p, fuel) == Run(g, root, st, p, fuel)
  }

  predicate DividesNowhere(g: Graph) { forall b {:trigger g[b]} :: 0 <= b < |g| ==> NoDivision(g[b].stmts) }

  /** If blocks set what they read, return constants or divide nowhere, they go on doing so. */
  ghost predicate FormKept(g: Graph, g2: Graph) {
    && (Backpatch.OwnFrom(g, 0) ==> Backpatch.OwnFrom(g2, 0))
    && (ReturnsConstants(g) ==> ReturnsConstants(g2)) && (DividesNowhere(g) ==> DividesNowhere(g2))
  }

  lemma {:induction false} SameForm(g: Graph, g2: Graph)
    requires SameBlocks(g, g2)
    ensures FormKept(g, g2)
  {
    hide Liveness.LiveIn, NoDivision;
    if Backpatch.OwnFrom(g, 0) {
      forall x | 0 <= x < |g2| ensures Liveness.SelfContained(g2[x]) {
        assert Liveness.SelfContained(g[x]);
      }
    }
    forall x | 0 <= x < |g2| ensures g2[x].stmts == g[x].stmts && g2[x].s == g[x].s {
    }
  }

  lemma {:induction false} FormThen(g: Graph, g1: Graph, g2: Graph)
    requires FormKept(g, g1) && FormKept(g1, g2)
    ensures FormKept(g, g2)
  {
    hide Backpatch.OwnFrom, ReturnsConstants, DividesNowhere;
  }

  lemma {:induction false} FormOwns(g: Graph, g2: Graph)
    requires FormKept(g, g2)
    ensures Backpatch.OwnFrom(g, 0) ==> Backpatch.OwnFrom(g2, 0)
    ensures (ReturnsConstants(g) ==> ReturnsConstants(g2)) && (DividesNowhere(g) ==> DividesNowhere(g2))
  {
  }

  /** The size of the value table: three numbers for each statement and each block. */
  method MaxValues(g: Graph) returns (n: nat)
    requires |g| > 0
    ensures n == 3 * ValuePass.MaxStmts(g, |g|)
    ensures n > 0
  {
    var i := 0;
    n := 0;
    while i < |g|
      invariant 0 <= i <= |g| && n == 3 * ValuePass.MaxStmts(g, i) && (i > 0 ==> n > 0)
    {
      var k := Slength(g[i].stmts);
      n := n + 3 * (k + 1);
      i := i + 1;
    }
  }

  // The blocks of done have lost their dead stores; the others are untouched.
  ghost predicate CleanedSoFar(g: Graph, g2: Graph, done: set<Id>, outUse: seq<set<Atom>>) {
    DeadStores.Swept(g, g2, done, outUse) && forall b {:trigger g2[b]} :: 0 <= b < |g| && b !in done ==> g2[b] == g[b]
  }

  lemma {:induction false} CleanedNext(g: Graph, g2: Graph, done: set<Id>, outUse: seq<set<Atom>>, b: Id, ss: seq<Stmt>)
    requires CleanedSoFar(g, g2, done, outUse) && b < |g| && b !in done
    requires DeadStores.Trimmed(g[b].stmts, ss, outUse[b] + Liveness.BranchUses(g[b].s))
    ensures CleanedSoFar(g, g2[b := g2[b].(stmts := ss)], done + {b}, outUse)
  {
    hide DeadStores.Trimmed;
    var g3 := g2[b := g2[b].(stmts := ss)];
    forall c | c in done + {b} ensures c < |g| && DeadStores.Cleaned(g[c], g3[c])
      && DeadStores.Trimmed(g[c].stmts, g3[c].stmts, outUse[c] + Liveness.BranchUses(g[c].s))
    {
      if c in done { assert DeadStores.Cleaned(g[c], g2[c]); } else { assert g2[b] == g[b]; }
    }
  }

  /** What is left of a block when out is live behind it: a statement becomes a NOP exactly when its atom is not live after it. */
  ghost predicate Stripped(n: Node, n2: Node, out: set<Atom>) {
    && n2 == n.(stmts := n2.stmts) && |n2.stmts| == |n.stmts|
    && forall k {:trigger n2.stmts[k]} :: 0 <= k < |n.stmts| ==>
         n2.stmts[k] == if n.stmts[k].Nop? || Bpf.Def(n.stmts[k]) in Liveness.LiveIn(n.stmts[k+1..], RetK(0), out + Liveness.BranchUses(n.s))
                        then n.stmts[k] else Nop
  }

  // The blocks of done have been stripped, the others are untouched.
  ghost predicate StrippedSoFar(g: Graph, g2: Graph, done: set<Id>, outUse: seq<set<Atom>>) {
    && |g| == |g2| == |outUse| && (forall b {:trigger g2[b]} :: 0 <= b < |g| && b !in done ==> g2[b] == g[b])
    && forall b {:trigger Stripped(g[b], g2[b], outUse[b])} :: b in done ==> b < |g| && Stripped(g[b], g2[b], outUse[b])
  }

  /** Dead stores dropped in every reachable block, by what is live in g, and nothing else changed. */
  ghost predicate StoresDropped(g: Graph, g2: Graph, root: Id, lv: Blocks.Levels) {
    && Leveled(g, lv) && |g2| == |g|
    && forall reach {:trigger IsReach(g, root, reach)} :: IsReach(g, root, reach) ==>
         forall b {:trigger g2[b]} :: 0 <= b < |g| ==> if b in reach then Stripped(g[b], g2[b], Liveness.LiveBehind(g, lv, b)) else g2[b] == g[b]
  }

  lemma {:induction false} StrippedHere(n: Node, ss: seq<Stmt>, out: set<Atom>)
    requires |ss| == |n.stmts|
    requires var keep := out + Liveness.BranchUses(n.s);
      forall k :: 0 <= k < |ss| ==> ss[k] == if DeadStores.Needed(n.stmts, k, keep) then n.stmts[k] else Nop
    ensures Stripped(n, n.(stmts := ss), out)
  {
    hide DeadStores.Needed, Liveness.LiveIn, Bpf.Def;
    forall k | 0 <= k < |ss| && !n.stmts[k].Nop?
      ensures DeadStores.Needed(n.stmts, k, out + Liveness.BranchUses(n.s)) <==>
              Bpf.Def(n.stmts[k]) in Liveness.LiveIn(n.stmts[k+1..], RetK(0), out + Liveness.BranchUses(n.s))
    {
      Cleanup.NeededLive(n.stmts, k, out + Liveness.BranchUses(n.s));
    }
  }

  lemma {:induction false} StrippedNext(g: Graph, g2: Graph, done: set<Id>, outUse: seq<set<Atom>>, b: Id, ss: seq<Stmt>)
    requires StrippedSoFar(g, g2, done, outUse) && b < |g| && b !in done && Stripped(g[b], g[b].(stmts := ss), outUse[b])
    ensures StrippedSoFar(g, g2[b := g2[b].(stmts := ss)], done + {b}, outUse)
  {
    hide Stripped;
    var g3 := g2[b := g2[b].(stmts := ss)];
    forall c | c in done + {b} ensures c < |g| && Stripped(g[c], g3[c], outUse[c]) {
      if c in done { assert Stripped(g[c], g2[c], outUse[c]); } else { assert g2[b] == g[b]; }
    }
  }

  lemma {:induction false} StrippedNone(g: Graph, outUse: seq<set<Atom>>)
    requires |outUse| == |g|
    ensures StrippedSoFar(g, g, {}, outUse)
  {
  }

  lemma {:induction false} StrippedAll(g: Graph, g2: Graph, root: Id, lv: Blocks.Levels, reach: set<Id>, inUse: seq<set<Atom>>, outUse: seq<set<Atom>>)
    requires Leveled(g, lv) && IsReach(g, root, reach) && Liveness.LiveSets(g, reach, inUse, outUse) && StrippedSoFar(g, g2, reach, outUse)
    ensures StoresDropped(g, g2, root, lv)
  {
    hide Stripped, Liveness.LiveSets, Liveness.LiveBehind;
    forall other, b | IsReach(g, root, other) && 0 <= b < |g|
      ensures if b in other then Stripped(g[b], g2[b], Liveness.LiveBehind(g, lv, b)) else g2[b] == g[b]
    {
      assert other == reach by { OneReach(g, root, other, reach); }
      if b in reach {
        Liveness.LiveIs(g, lv, reach, inUse, outUse, b);
        assert Stripped(g[b], g2[b], outUse[b]);
      }
    }
  }

  lemma {:induction false} OneReach(g: Graph, root: Id, x: set<Id>, y: set<Id>)
    requires IsReach(g, root, x) && IsReach(g, root, y)
    ensures x == y
  {
  }

  predicate AllSealed(g: Graph) { forall b {:trigger g[b]} :: 0 <= b < |g| ==> Liveness.Sealed(g[b]) }

  lemma {:induction false} OwnSealed(g: Graph)
    requires Backpatch.OwnFrom(g, 0)
    ensures AllSealed(g)
  {
    hide Liveness.Sealed, Liveness.SelfContained;
    forall b | 0 <= b < |g| ensures Liveness.Sealed(g[b]) {
      assert Liveness.SelfContained(g[b]);
      GeneratorForm.OwnSealed(g[b]);
    }
  }

  lemma {:induction false} ReturnsSealed(g: Graph)
    requires ReturnsConstants(g)
    ensures AllSealed(g)
  {
  }

  /** A block that has lost dead stores still sets all it reads. */
  lemma {:induction false} CleanedOwns(g: Graph, b: Id, ss: seq<Stmt>, out: set<Atom>)
    requires Backpatch.OwnFrom(g, 0) && b < |g| && |ss| == |g[b].stmts|
    requires var keep := out + Liveness.BranchUses(g[b].s);
      forall k :: 0 <= k < |ss| ==> ss[k] == if DeadStores.Needed(g[b].stmts, k, keep) then g[b].stmts[k] else Nop
    ensures Backpatch.OwnFrom(g[b := g[b].(stmts := ss)], 0)
  {
    hide Liveness.LiveIn, DeadStores.Needed, Cleanup.DropsDead, Liveness.BranchUses;
    var uses := Liveness.BranchUses(g[b].s);
    assert Liveness.SelfContained(g[b]);
    Cleanup.NeededDrops(g[b].stmts, ss, out + uses);
    Cleanup.DropsFewer(g[b].stmts, ss, out + uses, uses);
    Cleanup.DropsLive(g[b].stmts, ss, uses);
  }

  lemma {:induction false} CleanedForm(g: Graph, b: Id, ss: seq<Stmt>, out: set<Atom>)
    requires b < |g| && |ss| == |g[b].stmts|
    requires var keep := out + Liveness.BranchUses(g[b].s);
      forall k :: 0 <= k < |ss| ==> ss[k] == if DeadStores.Needed(g[b].stmts, k, keep) then g[b].stmts[k] else Nop
    ensures FormKept(g, g[b := g[b].(stmts := ss)])
  {
    hide DeadStores.Needed, Backpatch.OwnFrom;
    if Backpatch.OwnFrom(g, 0) { CleanedOwns(g, b, ss, out); }
    if DividesNowhere(g) { assert NoDivision(g[b].stmts); }
  }

  lemma {:induction false} CleanedKeeps(g: Graph, g2: Graph, root: Id, lv: Blocks.Levels, reach: set<Id>, inUse: seq<set<Atom>>, outUse: seq<set<Atom>>)
    requires Leveled(g, lv) && AllSealed(g) && IsReach(g, root, reach)
    requires Liveness.LiveSets(g, reach, inUse, outUse) && CleanedSoFar(g, g2, reach, outUse)
    ensures KeepsResults(g, g2, root, lv)
  {
    hide Liveness.LiveIn, DeadStores.Trimmed, Liveness.Sealed;
    forall b | 0 <= b < |g| ensures g2[b] == g[b].(stmts := g2[b].stmts) {
      if b in reach { assert DeadStores.Cleaned(g[b], g2[b]); }
    }
    forall st: State, p: Packet, fuel: nat | lv[root] < fuel
      ensures Run(g, root, st, p, fuel) == Fault || Run(g2, root, st, p, fuel) == Run(g, root, st, p, fuel)
    {
      DeadStores.DeadStoresSafe(g, g2, reach, inUse, outUse, root, st, st, p, fuel);
    }
  }

  /** Find the live atoms of every block and drop its dead stores, exactly. */
  method DeadStoreRound(g: Graph, root: Id, ghost lv: Blocks.Levels) returns (g2: Graph)
    requires Leveled(g, lv) && root < |g| && AllSealed(g)
    ensures KeepsResults(g, g2, root, lv) && FormKept(g, g2) && StoresDropped(g, g2, root, lv)
  {
    hide StrippedSoFar, Stripped, IsReach, Leveling, Backpatch.OwnFrom, Liveness.LiveSets, CleanedSoFar, Above, DeadStores.Trimmed, DeadStores.Needed, AllSealed,
         FormKept;
    var leveler := new Leveler(g);
    ghost var reach := leveler.FindLevels(root, lv);
    var level, levels := leveler.level, leveler.levels;
    var ud := new Liveness.UseDef(g);
    ud.FindUd(root, level, levels, reach);
    AboveEnds(g, root, reach, level, levels);
    g2 := g;
    ghost var inUse := ud.inUse;
    var outUse := ud.outUse;
    CleanedNone(g, outUse);
    StrippedNone(g, outUse);
    SameAsSelf(g);
    SameForm(g, g);
    var i := level[root];
    while i >= 0
      invariant -1 <= i < |levels| == |g| == |g2| && CleanedSoFar(g, g2, Above(reach, level, levels, i, 0), outUse)
      invariant FormKept(g, g2) && StrippedSoFar(g, g2, Above(reach, level, levels, i, 0), outUse)
    {
      var j := 0;
      while j < |levels[i]|
        invariant 0 <= j <= |levels[i]| && |g2| == |g| && CleanedSoFar(g, g2, Above(reach, level, levels, i, j), outUse)
        invariant FormKept(g, g2) && StrippedSoFar(g, g2, Above(reach, level, levels, i, j), outUse)
      {
        var b := levels[i][j];
        AboveNext(g, reach, level, levels, i, j);
        CleanedOutside(g, g2, Above(reach, level, levels, i, j), outUse, b);
        var sweeper := new DeadStores.Sweeper(g2[b].stmts);
        sweeper.OptDeadstores(g2[b].s, outUse[b]);
        CleanedNext(g, g2, Above(reach, level, levels, i, j), outUse, b, sweeper.stmts);
        StrippedHere(g[b], sweeper.stmts, outUse[b]);
        StrippedNext(g, g2, Above(reach, level, levels, i, j), outUse, b, sweeper.stmts);
        CleanedForm(g2, b, sweeper.stmts, outUse[b]);
        FormThen(g, g2, g2[b := g2[b].(stmts := sweeper.stmts)]);
        g2 := g2[b := g2[b].(stmts := sweeper.stmts)];
        j := j + 1;
      }
      AboveDrop(g, reach, level, levels, i);
      i := i - 1;
    }
    CleanedKeeps(g, g2, root, lv, reach, inUse, outUse);
    StrippedAll(g, g2, root, lv, reach, inUse, outUse);
  }

  lemma {:induction false} CleanedNone(g: Graph, outUse: seq<set<Atom>>)
    requires |outUse| == |g|
    ensures CleanedSoFar(g, g, {}, outUse)
  {
  }

  lemma {:induction false} CleanedOutside(g: Graph, g2: Graph, done: set<Id>, outUse: seq<set<Atom>>, b: Id)
    requires CleanedSoFar(g, g2, done, outUse) && b < |g| && b !in done
    ensures |g2| == |g| == |outUse| && g2[b] == g[b]
  {
  }

  /** Merge equal blocks. */
  method InternRound(g: Graph, root: Id, ghost lv: Blocks.Levels) returns (g2: Graph, ghost lv2: Blocks.Levels)
    requires Leveled(g, lv) && root < |g|
    ensures Leveled(g2, lv2) && |g2| == |g| && SameBlocks(g, g2) && Intern.Shared(g2, root)
    ensures forall st: State, p: Packet, fuel: nat :: lv2[root] < fuel ==> Run(g2, root, st, p, fuel) == Run(g, root, st, p, lv[root] + 1)
    ensures FormKept(g, g2)
  {
    hide Intern.Shared, Intern.Exact, Intern.Depths, Run, Intern.Bounded, Backpatch.OwnFrom, ReturnsConstants;
    lv2 := Intern.Depths(g, lv);
    Intern.DepthsExact(g, lv);
    Intern.ExactLeveled(g, lv2);
    var interner := new Intern.Interner(g);
    interner.InternBlocks(root, lv2);
    g2 := interner.node;
    SameForm(g, g2);
    Intern.ExactLeveled(g2, lv2);
    forall st: State, p: Packet, fuel: nat | lv2[root] < fuel ensures Run(g2, root, st, p, fuel) == Run(g, root, st, p, lv[root] + 1) {
      assert Run(g2, root, st, p, fuel) == Run(g, root, st, p, fuel);
      EnoughFuel(g, lv, lv2, root, st, p, fuel);
    }
  }

  /** Any fuel above the level, by any levelling, gives the same result. */
  lemma {:induction false} EnoughFuel(g: Graph, lv: Blocks.Levels, lv2: Blocks.Levels, root: Id, st: State, p: Packet, fuel: nat)
    requires Leveled(g, lv) && Leveled(g, lv2) && root < |g| && lv2[root] < fuel
    ensures Run(g, root, st, p, fuel) == Run(g, root, st, p, lv[root] + 1)
  {
    hide Run;
    RunTerminates(g, lv2, root, st, p, fuel);
    RunTerminates(g, lv2, root, st, p, fuel + lv[root] + 1);
    RunTerminates(g, lv, root, st, p, fuel + lv[root] + 1);
  }
}
