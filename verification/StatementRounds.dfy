/** Numbering and rewriting statements as one round, and for which graphs it is safe. */
module StatementRounds {
  import opened Words
  import opened Bpf
  import opened Blocks
  import opened Reach
  import opened Levels
  import opened Dominators
  import opened InEdges
  import opened Values
  import opened Treatments
  import opened Numbering
  import opened ValueFlow
  import opened Rounds
  import Backpatch
  import Cleanup
  import Liveness
  import LostStores
  import Setters
  import UnknownNumbers
  import ValuePass
  import ValueSound

  // What one pass over the statements worked with: numbers, incoming edges, live atoms and reachable blocks.
  datatype PassLog = PassLog(s: ValuePass.Snapshot, inEdges: seq<seq<EdgeId>>, inUse: seq<set<Atom>>, outUse: seq<set<Atom>>, reach: set<Id>)

  /** The blocks of the result read nothing that the pass dropped from an earlier one. */
  ghost predicate NothingLost(g: Graph, g2: Graph, log: PassLog) {
    exists in2, out2 :: Liveness.LiveSets(g2, log.reach, in2, out2) && Cleanup.AllCovered(g, log.s, log.inEdges, log.outUse, log.reach, g2, out2)
  }

  lemma {:induction false} OwnReadsKnown(g: Graph, s: ValuePass.Snapshot, inEdges: seq<seq<EdgeId>>, b: Id)
    requires Backpatch.OwnFrom(g, 0) && ValuePass.Shaped(g, s, inEdges) && b < |g|
    ensures ValuePass.ReadsKnown(g, s, inEdges, b)
  {
    hide Liveness.LiveIn;
    assert Liveness.SelfContained(g[b]);
    Liveness.LiveMore(g[b].stmts, {}, Liveness.BranchUses(g[b].s));
  }

  lemma {:induction false} StatementsKept(g: Graph, g2: Graph, root: Id, lv: Blocks.Levels, log: PassLog)
    requires ValueSound.Finished(g, log.s, log.inEdges, true, root, log.reach) && Leveled(g, lv) && root < |g| && Backpatch.OwnFrom(g, 0)
    requires ReturnsConstants(g)
    requires Cleanup.Tidied(g, log.s, log.inEdges, log.outUse, log.reach, g2) && NothingLost(g, g2, log)
    ensures KeepsResults(g, g2, root, lv)
  {
    hide Cleanup.CleanedUp, Cleanup.AllCovered, Liveness.LiveSets, Backpatch.OwnFrom, ValuePass.ReadsKnown, Entering, ValuePass.DoneAt;
    Cleanup.TidiedClosed(g, log.s, log.inEdges, log.outUse, log.reach, g2);
    forall c | c in log.reach ensures c < |g| && ValuePass.ReadsKnown(g, log.s, log.inEdges, c) {
      OwnReadsKnown(g, log.s, log.inEdges, c);
    }
    var in2, out2 :| Liveness.LiveSets(g2, log.reach, in2, out2) && Cleanup.AllCovered(g, log.s, log.inEdges, log.outUse, log.reach, g2, out2);
    forall st: State, p: Packet, fuel: nat | lv[root] < fuel
      ensures Run(g, root, st, p, fuel) == Fault || Run(g2, root, st, p, fuel) == Run(g, root, st, p, fuel)
    {
      Cleanup.CleanupSafe(g, lv, log.s, log.inEdges, log.outUse, root, log.reach, g2, in2, out2, st, p, fuel);
    }
  }

  lemma {:induction false} SameEdges(g: Graph, g2: Graph, lv: Blocks.Levels, S: set<Id>)
    requires Leveled(g, lv) && ClosedUnder(g, S) && |g2| == |g| && forall b :: 0 <= b < |g| ==> g2[b] == g[b].(stmts := g2[b].stmts)
    ensures Leveled(g2, lv) && ClosedUnder(g2, S)
  {
    forall b | b in S ensures SuccSet(g2, b) <= S {
      assert SuccSet(g2, b) == SuccSet(g, b);
    }
  }

  /** Nothing is lost where no atom but A is set twice on a path. */
  lemma {:induction false} SetOnceKept(g: Graph, g2: Graph, root: Id, lv: Blocks.Levels, log: PassLog)
    requires ValueSound.Finished(g, log.s, log.inEdges, true, root, log.reach) && Leveled(g, lv) && root < |g| && Backpatch.OwnFrom(g, 0)
    requires ReturnsConstants(g) && Setters.SetOnce(g, root)
    requires Cleanup.Tidied(g, log.s, log.inEdges, log.outUse, log.reach, g2)
    ensures NothingLost(g, g2, log)
  {
    hide Setters.SetOnce, Cleanup.Tidied, Cleanup.AllCovered, Liveness.LiveSets, Entering, ValuePass.Progress, Liveness.SelfContained;
    Cleanup.TidiedClosed(g, log.s, log.inEdges, log.outUse, log.reach, g2);
    SameEdges(g, g2, lv, log.reach);
    var in2, out2 := Liveness.LiveSetsExist(g2, lv, log.reach);
    Setters.SetOnceCovered(g, lv, log.s, log.inEdges, log.outUse, root, log.reach, g2, in2, out2);
  }

  /** Some block that the root leads to cannot be got through: every run that comes there faults. */
  ghost predicate Stuck(g: Graph, root: Id) {
    Closed(g) && root < |g| && exists b: Id {:trigger ValueSound.Impassable(g, root, b)} :: b < |g| && Leads(g, root, b) && ValueSound.Impassable(g, root, b)
  }

  lemma {:induction false} StopsStuck(g: Graph, lv: Blocks.Levels, inEdges: seq<seq<EdgeId>>, root: Id, reach: set<Id>, at: ValuePass.Halt)
    requires Leveled(g, lv) && IsReach(g, root, reach) && Entering(g, reach, inEdges) && ValuePass.StopsAt(g, inEdges, true, at) && at.b in reach
    requires UnknownNumbers.ReadsOnly(g, {})
    ensures Stuck(g, root)
  {
    hide IsReach, Entering, ValuePass.Progress, Doomed, ValuePass.PredsDone, Exposed, ValueSound.Impassable, Leads;
    ValueSound.RootReached(g, root, reach);
    ValueSound.StopsImpassable(g, lv, inEdges, root, reach, at);
    ReachLeads(g, root, reach, at.b);
  }

  /** Number and simplify all statements, then empty blocks or drop their dead stores, by what was live before. The result is
      kept where nothing was lost, and so for every graph in which no atom but A is set twice on a path. */
  method StatementRound(g: Graph, root: Id, ghost lv: Blocks.Levels) returns (ok: bool, g2: Graph, ghost log: PassLog)
    requires Leveled(g, lv) && root < |g| && Backpatch.OwnFrom(g, 0) && ReturnsConstants(g)
    ensures DividesNowhere(g) ==> ok
    ensures !ok ==> Stuck(g, root)
    ensures ok ==> ValueSound.Finished(g, log.s, log.inEdges, true, root, log.reach)
    ensures ok ==> Liveness.LiveSets(g, log.reach, log.inUse, log.outUse)
    ensures ok ==> Cleanup.Tidied(g, log.s, log.inEdges, log.outUse, log.reach, g2)
    ensures ok && Setters.SetOnce(g, root) ==> NothingLost(g, g2, log)
    ensures ok && NothingLost(g, g2, log) ==> KeepsResults(g, g2, root, lv)
  {
    hide IsReach, Leveling, Entering, Backpatch.OwnFrom, Liveness.LiveSets, ValuePass.Progress, Cleanup.Tidied, Chained, Mapped, Denoted, NothingLost,
         KeepsResults, Setters.SetOnce, ReturnsConstants, NoDivision, Stuck, ValuePass.StopsAt, UnknownNumbers.ReadsOnly;
    g2 := g;
    OwnReadsNothing(g);
    var leveler := new Leveler(g);
    ghost var reach := leveler.FindLevels(root, lv);
    var level, levels := leveler.level, leveler.levels;
    var ud := new Liveness.UseDef(g);
    ud.FindUd(root, level, levels, reach);
    var lists := new EdgeLists(g);
    lists.FindInedges(root, level, levels, reach);
    var room := MaxValues(g);
    var table := new ValueTable(room);
    var pass := new ValuePass.Pass(g, table);
    ghost var at;
    ok, at := pass.OptBlks(root, level, levels, lists.inEdges, true, reach);
    log := PassLog(pass.Snap(), lists.inEdges, ud.inUse, ud.outUse, reach);
    if !ok {
      StopsStuck(g, lv, lists.inEdges, root, reach, at);
      return;
    }
    g2 := Cleanup.FinishBlks(g, pass, root, level, levels, lists.inEdges, ud.outUse, reach);
    if Setters.SetOnce(g, root) { SetOnceKept(g, g2, root, lv, log); }
    if NothingLost(g, g2, log) { StatementsKept(g, g2, root, lv, log); }
  }

  // A round over g that went through, and what it left.
  ghost predicate RoundOf(g: Graph, root: Id, lv: Blocks.Levels, g2: Graph, log: PassLog) {
    && Leveled(g, lv) && root < |g| && Backpatch.OwnFrom(g, 0) && ReturnsConstants(g)
    && ValueSound.Finished(g, log.s, log.inEdges, true, root, log.reach) && Liveness.LiveSets(g, log.reach, log.inUse, log.outUse)
    && Cleanup.Tidied(g, log.s, log.inEdges, log.outUse, log.reach, g2)
  }

  /** The round keeps the result of every graph that sets no atoms but those of P, and A, twice on a path. */
  ghost predicate SafeFor(P: set<Atom>) {
    forall g: Graph, root: Id, lv: Blocks.Levels, g2: Graph, log: PassLog ::
      RoundOf(g, root, lv, g2, log) && Setters.SetAgainOnly(g, root, P) ==> KeepsResults(g, g2, root, lv)
  }

  /** That is so exactly when P holds no atom but A: a round over the graph for any other atom shows that it is not. */
  method AtomsExact(P: set<Atom>)
    ensures SafeFor(P) <==> P <= {A_ATOM}
  {
    hide Run, Setters.SetAgainOnly, ValueSound.Finished, Liveness.LiveSets, Cleanup.Tidied, Backpatch.OwnFrom, NothingLost, KeepsResults;
    if P <= {A_ATOM} {
      forall g: Graph, root: Id, lv: Blocks.Levels, g2: Graph, log: PassLog | RoundOf(g, root, lv, g2, log) && Setters.SetAgainOnly(g, root, P)
        ensures KeepsResults(g, g2, root, lv)
      {
        NoneAgain(g, root, P);
        SetOnceKept(g, g2, root, lv, log);
        StatementsKept(g, g2, root, lv, log);
      }
    } else {
      var a :| a in P && a != A_ATOM;
      ghost var st: State := seq(N_ATOMS, _ => 0);
      ghost var log;
      var ok, g2;
      ok, g2, log := StatementRoundLoses(a, st, 5, 1);
      LostStores.StoresAgain(a, P);
      ResultChanged(LostStores.Stores(a), g2, [2, 1, 0, 0], st, Packet([5], 1));
    }
  }

  lemma {:induction false} NoneAgain(g: Graph, root: Id, P: set<Atom>)
    requires Setters.SetAgainOnly(g, root, P) && P <= {A_ATOM}
    ensures Setters.SetOnce(g, root)
  {
  }

  lemma {:induction false} ResultChanged(g: Graph, g2: Graph, lv: Blocks.Levels, st: State, p: Packet)
    requires Leveled(g, lv) && Leveled(g2, lv) && 0 < |g| && lv[0] == 2 && 0 < |g2|
    requires Run(g, 0, st, p, 3) == Return(0) && Run(g2, 0, st, p, 3) == Return(1)
    ensures !KeepsResults(g, g2, 0, lv)
  {
    hide Run;
  }

  /** That cannot be said of any other atom: for each of them here is a graph that sets it twice, and the round changes its
      result. */
  method StatementRoundLoses(a: Atom, ghost st: State, ghost v: Byte, ghost n: Word) returns (ok: bool, g2: Graph, ghost log: PassLog)
    requires a != A_ATOM && 0 < v < 9 && st[a] == 0
    ensures ok && Leveled(LostStores.Stores(a), [2, 1, 0, 0]) && Leveled(g2, [2, 1, 0, 0])
    ensures RoundOf(LostStores.Stores(a), 0, [2, 1, 0, 0], g2, log)
    ensures Run(LostStores.Stores(a), 0, st, Packet([v], n), 3) == Return(0)
    ensures Run(g2, 0, st, Packet([v], n), 3) == Return(1)
  {
    hide Run, Liveness.LiveIn, ValuePass.Progress, Cleanup.Tidied, Liveness.LiveSets;
    var g := LostStores.Stores(a);
    LostStores.StoresForm(a);
    ok, g2, log := StatementRound(g, 0, [2, 1, 0, 0]);
    LostStores.StoreLost(a, log.s, log.inEdges, log.inUse, log.outUse, log.reach, g2, st, v, n);
    Cleanup.TidiedClosed(g, log.s, log.inEdges, log.outUse, log.reach, g2);
  }

  // A numbering pass with alter over g that went through, and what it left.
  ghost predicate RewriteOf(g: Graph, root: Id, lv: Blocks.Levels, g2: Graph, s: ValuePass.Snapshot, inEdges: seq<seq<EdgeId>>, reach: set<Id>) {
    Leveled(g, lv) && root < |g| && ValueSound.Finished(g, s, inEdges, true, root, reach) && g2 == s.node
  }

  lemma {:induction false} RewriteKeeps(g: Graph, g2: Graph, root: Id, lv: Blocks.Levels, s: ValuePass.Snapshot, inEdges: seq<seq<EdgeId>>, reach: set<Id>)
    requires RewriteOf(g, root, lv, g2, s, inEdges, reach)
    ensures ReturnsConstants(g) ==> ReturnsConstants(g2)
    ensures UnknownNumbers.ReadsOnly(g, {}) ==> KeepsResults(g, g2, root, lv)
  {
    hide ValuePass.ReadsKnown, Entering, ValuePass.DoneAt, Run, UnknownNumbers.ReadsOnly;
    ValueSound.PassClosed(g, s, inEdges, true, root, reach);
    SameBranches(g, s, inEdges, reach);
    if UnknownNumbers.ReadsOnly(g, {}) {
      forall c | c in reach ensures c < |g| && ValuePass.Shaped(g, s, inEdges) && ValuePass.ReadsKnown(g, s, inEdges, c) {
        ValueSound.TreatedBlock(g, s, inEdges, true, root, reach, c);
        NothingUnknown(g, s, inEdges, c);
      }
      forall st: State, p: Packet, fuel: nat | lv[root] < fuel
        ensures Run(g, root, st, p, fuel) == Fault || Run(g2, root, st, p, fuel) == Run(g, root, st, p, fuel)
      {
        ValueSound.AlterSafe(g, lv, s, inEdges, root, reach, st, p, fuel);
      }
    }
  }

  lemma {:induction false} NothingUnknown(g: Graph, s: ValuePass.Snapshot, inEdges: seq<seq<EdgeId>>, b: Id)
    requires UnknownNumbers.ReadsOnly(g, {}) && ValuePass.Shaped(g, s, inEdges) && b < |g|
    ensures ValuePass.ReadsKnown(g, s, inEdges, b)
  {
    hide Exposed;
  }

  lemma {:induction false} OwnReadsNothing(g: Graph)
    requires Backpatch.OwnFrom(g, 0)
    ensures UnknownNumbers.ReadsOnly(g, {})
  {
    hide Liveness.LiveIn;
    forall b | 0 <= b < |g| ensures Exposed(g[b].stmts) <= {} {
      assert Liveness.SelfContained(g[b]);
      Liveness.LiveMore(g[b].stmts, {}, Liveness.BranchUses(g[b].s));
    }
  }

  lemma {:induction false} SameBranches(g: Graph, s: ValuePass.Snapshot, inEdges: seq<seq<EdgeId>>, reach: set<Id>)
    requires ValuePass.Progress(g, s, inEdges, true, reach)
    ensures |s.node| == |g| && forall b :: 0 <= b < |g| ==> s.node[b] == g[b].(stmts := s.node[b].stmts)
  {
    hide Numbered, ExactlyAll, Distinct, Whole, ValuePass.OperandNumber;
    forall b | 0 <= b < |g| ensures s.node[b] == g[b].(stmts := s.node[b].stmts) {
      if b in reach { assert ValuePass.DoneAt(g, s, inEdges, true, b); }
    }
  }

  /** The numbering pass with alter, and nothing dropped: the result is kept on every graph whose blocks set what they read. */
  method RewriteRound(g: Graph, root: Id, ghost lv: Blocks.Levels)
    returns (ok: bool, g2: Graph, ghost s: ValuePass.Snapshot, ghost inEdges: seq<seq<EdgeId>>, ghost reach: set<Id>)
    requires Leveled(g, lv) && root < |g|
    ensures DividesNowhere(g) ==> ok
    ensures !ok && UnknownNumbers.ReadsOnly(g, {}) ==> Stuck(g, root)
    ensures ok ==> RewriteOf(g, root, lv, g2, s, inEdges, reach)
    ensures ok && UnknownNumbers.ReadsOnly(g, {}) ==> KeepsResults(g, g2, root, lv)
    ensures ok && ReturnsConstants(g) ==> ReturnsConstants(g2)
  {
    hide IsReach, Leveling, Entering, ValuePass.Progress, Chained, Mapped, Denoted, KeepsResults, ReturnsConstants, NoDivision, UnknownNumbers.ReadsOnly,
         Stuck, ValuePass.StopsAt;
    g2, inEdges := g, [];
    var leveler := new Leveler(g);
    reach := leveler.FindLevels(root, lv);
    var level, levels := leveler.level, leveler.levels;
    var lists := new EdgeLists(g);
    lists.FindInedges(root, level, levels, reach);
    var room := MaxValues(g);
    var table := new ValueTable(room);
    var pass := new ValuePass.Pass(g, table);
    ghost var at;
    ok, at := pass.OptBlks(root, level, levels, lists.inEdges, true, reach);
    s, inEdges := pass.Snap(), lists.inEdges;
    if !ok {
      if UnknownNumbers.ReadsOnly(g, {}) { StopsStuck(g, lv, inEdges, root, reach, at); }
      return;
    }
    g2 := pass.node;
    RewriteKeeps(g, g2, root, lv, s, inEdges, reach);
  }

  /** Rewriting keeps the result of every graph whose blocks read no atoms but those of P before they set them. */
  ghost predicate RewriteSafeFor(P: set<Atom>) {
    forall g: Graph, root: Id, lv: Blocks.Levels, g2: Graph, s: ValuePass.Snapshot, inEdges: seq<seq<EdgeId>>, reach: set<Id> ::
      RewriteOf(g, root, lv, g2, s, inEdges, reach) && UnknownNumbers.ReadsOnly(g, P) ==> KeepsResults(g, g2, root, lv)
  }

  /** That is so exactly when P is empty: for any atom, a pass over a graph that reads it first shows that it is not. */
  method UnknownExact(P: set<Atom>)
    ensures RewriteSafeFor(P) <==> P == {}
  {
    hide Run, RewriteOf, KeepsResults, UnknownNumbers.ReadsOnly;
    if P == {} {
      forall g: Graph, root: Id, lv: Blocks.Levels, g2: Graph, s: ValuePass.Snapshot, inEdges: seq<seq<EdgeId>>, reach: set<Id>
        | RewriteOf(g, root, lv, g2, s, inEdges, reach) && UnknownNumbers.ReadsOnly(g, P)
        ensures KeepsResults(g, g2, root, lv)
      {
        RewriteKeeps(g, g2, root, lv, s, inEdges, reach);
      }
    } else {
      var a :| a in P;
      ghost var s, inEdges, reach;
      var ok, g2;
      MovedForm(a);
      ok, g2, s, inEdges, reach := RewriteRound(UnknownNumbers.Moved(a), 0, [1, 0, 0]);
      MovedChanged(a, P, g2, s, inEdges, reach);
    }
  }

  lemma {:induction false} MovedForm(a: Atom)
    ensures Leveled(UnknownNumbers.Moved(a), [1, 0, 0]) && DividesNowhere(UnknownNumbers.Moved(a))
  {
  }

  lemma {:induction false} MovedChanged(a: Atom, P: set<Atom>, g2: Graph, s: ValuePass.Snapshot, inEdges: seq<seq<EdgeId>>, reach: set<Id>)
    requires a in P && RewriteOf(UnknownNumbers.Moved(a), 0, [1, 0, 0], g2, s, inEdges, reach)
    ensures UnknownNumbers.ReadsOnly(UnknownNumbers.Moved(a), P) && !KeepsResults(UnknownNumbers.Moved(a), g2, 0, [1, 0, 0])
  {
    hide Run, ValueSound.Finished, Exposed, UnknownNumbers.Move;
    var st: State := seq(N_ATOMS, _ => 0);
    st := st[A_ATOM := 1];
    var p := Packet([], 0);
    UnknownNumbers.MoveReads(a);
    UnknownNumbers.MoveLost(a, s, inEdges, reach, st, p);
  }

  // Statements rewritten, and then dead stores dropped by what is live after it.
  ghost predicate SeparateOf(g: Graph, g1: Graph, g2: Graph, root: Id, lv: Blocks.Levels) {
    && (exists s, inEdges, reach :: RewriteOf(g, root, lv, g1, s, inEdges, reach))
    && StoresDropped(g1, g2, root, lv)
  }

  /** The same two steps one after the other, with the live atoms of the rewritten graph: now nothing can be lost. */
  method SeparateRounds(g: Graph, root: Id, ghost lv: Blocks.Levels) returns (ok: bool, g2: Graph, ghost g1: Graph)
    requires Leveled(g, lv) && root < |g| && Backpatch.OwnFrom(g, 0) && ReturnsConstants(g)
    ensures DividesNowhere(g) ==> ok
    ensures !ok ==> Stuck(g, root)
    ensures ok ==> KeepsResults(g, g2, root, lv) && ReturnsConstants(g2) && SeparateOf(g, g1, g2, root, lv)
  {
    hide Backpatch.OwnFrom, Run, DividesNowhere, ReturnsConstants, RewriteOf, UnknownNumbers.ReadsOnly, StoresDropped, Stuck;
    ghost var s, inEdges, reach;
    OwnReadsNothing(g);
    ok, g2, s, inEdges, reach := RewriteRound(g, root, lv);
    g1 := g2;
    if !ok { return; }
    ReturnsSealed(g2);
    g2 := DeadStoreRound(g2, root, lv);
  }
}
