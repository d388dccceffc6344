/** What the numbers of a finished pass mean along every run. */
module ValueSound {
  import opened Words
  import opened Bpf
  import opened Blocks
  import opened Reach
  import opened Dominators
  import opened InEdges
  import opened Values
  import opened Rewrites
  import opened Treatments
  import opened ValueFlow
  import opened ValuePass

  datatype Stop = Stop(b: Id, st: State)

  /** The n-th block the run from b visits, and the state at its end; None if the run faults or ends before. */
  function Trail(g: Graph, b: Id, st: State, p: Packet, n: nat): Option<Stop>
    requires Closed(g) && b < |g|
    decreases n
  {
    match Exec(g[b].stmts, st, p)
    case None => None
    case Some(st') =>
      if n == 0 then Some(Stop(b, st'))
      else if !g[b].s.Jmp? then None
      else Trail(g, g[b].Succ(Taken(g[b].s, st')), st', p, n - 1)
  }

  /** A finished pass over the blocks reached from root. */
  ghost predicate Finished(g: Graph, s: Snapshot, inEdges: seq<seq<EdgeId>>, alter: bool, root: Id, reach: set<Id>) {
    Closed(g) && IsReach(g, root, reach) && Entering(g, reach, inEdges) && Progress(g, s, inEdges, alter, reach)
  }

  predicate EntryHolds(g: Graph, s: Snapshot, inEdges: seq<seq<EdgeId>>, b: Id, st: State, p: Packet)
    requires Shaped(g, s, inEdges) && b < |g|
  {
    Issued(EntryVals(g, s, inEdges, b), |s.den|) && Holds(SymOf(s.den, EntryVals(g, s, inEdges, b)), st, p)
  }

  /** Whatever edge is taken into a block, its inherited numbers hold. */
  lemma {:induction false} EdgeCarries(g: Graph, s: Snapshot, inEdges: seq<seq<EdgeId>>, alter: bool, root: Id, reach: set<Id>,
                                       b: Id, side: bool, st: State, p: Packet)
    requires Finished(g, s, inEdges, alter, root, reach) && b in reach && g[b].s.Jmp?
    requires Issued(s.val[b], |s.den|) && Holds(SymOf(s.den, s.val[b]), st, p)
    ensures g[b].Succ(side) in reach && EntryHolds(g, s, inEdges, g[b].Succ(side), st, p)
  {
    hide Numbered, TermHolds;
    var c := g[b].Succ(side);
    assert c in SuccSet(g, b);
    var e := EdgeOf(g, b, side);
    assert Tail(g, e) == b && Head(g, e) == c;
    assert EntersAt(g, reach, inEdges, c, e);
    var i :| 0 <= i < |inEdges[c]| && inEdges[c][i] == e;
    var entry := EntryVals(g, s, inEdges, c);
    assert DoneAt(g, s, inEdges, alter, c);
    forall a: Atom ensures TermHolds(SymOf(s.den, entry)[a], st[a], p) {
      var nums := PredNumbers(g, inEdges[c], s.val, a);
      assert nums[i] == s.val[b][a];
      UnknownHolds(st[a], p);
      assert TermHolds(SymOf(s.den, s.val[b])[a], st[a], p);
    }
  }

  lemma {:induction false} UnknownHolds(v: Word, p: Packet)
    ensures TermHolds(Unknown, v, p)
  {
  }

  /** No edge enters the root, so nothing is assumed there. */
  lemma {:induction false} RootHolds(g: Graph, lv: Blocks.Levels, s: Snapshot, inEdges: seq<seq<EdgeId>>, alter: bool, root: Id, reach: set<Id>,
                                     st: State, p: Packet)
    requires Finished(g, s, inEdges, alter, root, reach) && Leveled(g, lv)
    ensures EntryHolds(g, s, inEdges, root, st, p)
  {
    hide Numbered, TermHolds;
    if |inEdges[root]| > 0 {
      var e := inEdges[root][0];
      assert EntersAt(g, reach, inEdges, root, e);
      RootOnTop(g, lv, root, reach, Tail(g, e));
      assert false;
    }
    var entry := EntryVals(g, s, inEdges, root);
    assert DoneAt(g, s, inEdges, alter, root);
    forall a: Atom ensures TermHolds(SymOf(s.den, entry)[a], st[a], p) {
      assert entry[a] == Common(PredNumbers(g, inEdges[root], s.val, a));
      UnknownHolds(st[a], p);
    }
  }

  /** From a block whose entry numbers hold, the exit numbers of every block visited hold. */
  lemma {:induction false} TrailHolds(g: Graph, s: Snapshot, inEdges: seq<seq<EdgeId>>, root: Id, reach: set<Id>,
                                      b: Id, st: State, p: Packet, n: nat)
    requires Finished(g, s, inEdges, false, root, reach) && b in reach && EntryHolds(g, s, inEdges, b, st, p)
    ensures var t := Trail(g, b, st, p, n);
      t.Some? ==> t.value.b in reach && Issued(s.val[t.value.b], |s.den|) && Holds(SymOf(s.den, s.val[t.value.b]), t.value.st, p)
    decreases n
  {
    hide IsReach, Entering, Progress, Holds, Taken, Carries;
    TreatedBlock(g, s, inEdges, false, root, reach, b);
    if Exec(g[b].stmts, st, p).Some? {
      var st' := Exec(g[b].stmts, st, p).value;
      SymExecSound(g[b].stmts, SymOf(s.den, EntryVals(g, s, inEdges, b)), st, p);
      if n > 0 && g[b].s.Jmp? {
        var side := Taken(g[b].s, st');
        EdgeCarries(g, s, inEdges, false, root, reach, b, side, st', p);
        TrailHolds(g, s, inEdges, root, reach, g[b].Succ(side), st', p, n - 1);
      }
    }
  }

  lemma {:induction false} TreatedBlock(g: Graph, s: Snapshot, inEdges: seq<seq<EdgeId>>, alter: bool, root: Id, reach: set<Id>, b: Id)
    requires Finished(g, s, inEdges, alter, root, reach) && b in reach
    ensures b < |g| && Shaped(g, s, inEdges) && DoneAt(g, s, inEdges, alter, b)
  {
  }

  /** The soundness of value numbering: on every run that gets to the end of a block without
      a fault, every atom whose number depends on nothing unknown holds what the number stands for. */
  lemma {:induction false} ValuesSound(g: Graph, lv: Blocks.Levels, s: Snapshot, inEdges: seq<seq<EdgeId>>, root: Id, reach: set<Id>,
                                       st: State, p: Packet, n: nat)
    requires Finished(g, s, inEdges, false, root, reach) && Leveled(g, lv)
    ensures var t := Trail(g, root, st, p, n);
      t.Some? ==> t.value.b in reach && Issued(s.val[t.value.b], |s.den|)
                  && forall a: Atom :: TermHolds(s.den[s.val[t.value.b][a]], t.value.st[a], p)
  {
    hide TermHolds, Progress, Entering, EntryHolds;
    RootHolds(g, lv, s, inEdges, false, root, reach, st, p);
    TreatedBlock(g, s, inEdges, false, root, reach, root);
    TrailHolds(g, s, inEdges, root, reach, root, st, p, n);
    var t := Trail(g, root, st, p, n);
    if t.Some? {
      forall a: Atom ensures TermHolds(s.den[s.val[t.value.b][a]], t.value.st[a], p) {
        HoldsAt(SymOf(s.den, s.val[t.value.b]), t.value.st, p, a);
      }
    }
  }

  /** If no block reads an atom without a number, every nonzero number stands for something known,
      so every atom with a nonzero number holds its value. */
  lemma {:induction false} NumbersSound(g: Graph, lv: Blocks.Levels, s: Snapshot, inEdges: seq<seq<EdgeId>>, root: Id, reach: set<Id>,
                                        st: State, p: Packet, n: nat)
    requires Finished(g, s, inEdges, false, root, reach) && Leveled(g, lv)
    requires forall b :: b in reach ==> Shaped(g, s, inEdges) && b < |g| && ReadsKnown(g, s, inEdges, b)
    ensures var t := Trail(g, root, st, p, n);
      t.Some? ==> t.value.b in reach && Issued(s.val[t.value.b], |s.den|)
                  && forall a: Atom :: s.val[t.value.b][a] != 0 ==> Eval(s.den[s.val[t.value.b][a]], p) == Some(t.value.st[a])
  {
    hide DoneAt, ReadsKnown, Entering;
    ValuesSound(g, lv, s, inEdges, root, reach, st, p, n);
    assert Whole(s.den);
    var t := Trail(g, root, st, p, n);
    if t.Some? {
      forall a: Atom | s.val[t.value.b][a] != 0 ensures Eval(s.den[s.val[t.value.b][a]], p) == Some(t.value.st[a]) {
        assert TermHolds(s.den[s.val[t.value.b][a]], t.value.st[a], p);
      }
    }
  }

  /** Simplifying statements keeps the result of every run that does not fault. */
  lemma {:induction false} AlterRun(g: Graph, s: Snapshot, inEdges: seq<seq<EdgeId>>, root: Id, reach: set<Id>,
                                    b: Id, st: State, p: Packet, fuel: nat)
    requires Finished(g, s, inEdges, true, root, reach) && b in reach && Closed(s.node) && EntryHolds(g, s, inEdges, b, st, p)
    requires Shaped(g, s, inEdges) && Whole(s.den) && forall c :: c in reach ==> c < |g| && ReadsKnown(g, s, inEdges, c)
    ensures Run(g, b, st, p, fuel) != Fault ==> Run(s.node, b, st, p, fuel) == Run(g, b, st, p, fuel)
    decreases fuel
  {
    hide IsReach, Entering, Progress, Holds, Taken, Exposed, Exec, SymExec, Whole, ReadsKnown;
    TreatedBlock(g, s, inEdges, true, root, reach, b);
    var entry := EntryVals(g, s, inEdges, b);
    KnownFirm(g, s, inEdges, b);
    assert CarriesAt(g[b].stmts, s.node[b].stmts, SymOf(s.den, entry), SymOf(s.den, s.val[b]), st, p);
    if fuel > 0 && Exec(g[b].stmts, st, p).Some? && g[b].s.Jmp? {
      var st' := Exec(g[b].stmts, st, p).value;
      var side := Taken(g[b].s, st');
      EdgeCarries(g, s, inEdges, true, root, reach, b, side, st', p);
      AlterRun(g, s, inEdges, root, reach, g[b].Succ(side), st', p, fuel - 1);
    }
  }

  lemma {:induction false} KnownFirm(g: Graph, s: Snapshot, inEdges: seq<seq<EdgeId>>, b: Id)
    requires Shaped(g, s, inEdges) && b < |g| && Issued(EntryVals(g, s, inEdges, b), |s.den|) && Whole(s.den) && ReadsKnown(g, s, inEdges, b)
    ensures Firm(SymOf(s.den, EntryVals(g, s, inEdges, b)), Exposed(g[b].stmts))
  {
    hide Exposed, Solid;
    var entry := EntryVals(g, s, inEdges, b);
    assert forall a: Atom {:trigger entry[a]} :: SymOf(s.den, entry)[a] == s.den[entry[a]];
  }

  lemma {:induction false} PassClosed(g: Graph, s: Snapshot, inEdges: seq<seq<EdgeId>>, alter: bool, root: Id, reach: set<Id>)
    requires Finished(g, s, inEdges, alter, root, reach)
    ensures Closed(s.node)
  {
    forall b | 0 <= b < |g| ensures s.node[b] == g[b].(stmts := s.node[b].stmts) {
      if b in reach { TreatedBlock(g, s, inEdges, alter, root, reach, b); }
    }
  }

  /** Statement rewriting is safe when no block reads an atom without a number. */
  lemma {:induction false} AlterSafe(g: Graph, lv: Blocks.Levels, s: Snapshot, inEdges: seq<seq<EdgeId>>, root: Id, reach: set<Id>,
                                     st: State, p: Packet, fuel: nat)
    requires Finished(g, s, inEdges, true, root, reach) && Leveled(g, lv)
    requires forall b :: b in reach ==> Shaped(g, s, inEdges) && b < |g| && ReadsKnown(g, s, inEdges, b)
    ensures Closed(s.node)
    ensures Run(g, root, st, p, fuel) != Fault ==> Run(s.node, root, st, p, fuel) == Run(g, root, st, p, fuel)
  {
    hide DoneAt, ReadsKnown, Entering, EntryHolds;
    RootHolds(g, lv, s, inEdges, true, root, reach, st, p);
    assert Whole(s.den);
    PassClosed(g, s, inEdges, true, root, reach);
    AlterRun(g, s, inEdges, root, reach, root, st, p, fuel);
  }

  /** No run from root gets to the end of block b: each faults before, or in b, or goes another way. */
  ghost predicate Impassable(g: Graph, root: Id, b: Id)
    requires Closed(g) && root < |g|
  {
    forall st: State, p: Packet, n: nat :: AvoidsAt(g, root, b, st, p, n)
  }

  predicate AvoidsAt(g: Graph, root: Id, b: Id, st: State, p: Packet, n: nat)
    requires Closed(g) && root < |g|
  {
    var t := Trail(g, root, st, p, n);
    t.Some? ==> t.value.b != b
  }

  // Blocks that lead to the one where the pass stops have been treated.
  lemma {:induction false} TrailDone(g: Graph, inEdges: seq<seq<EdgeId>>, alter: bool, root: Id, reach: set<Id>, at: Halt,
                                     c: Id, st: State, p: Packet, n: nat)
    requires Closed(g) && IsReach(g, root, reach) && Entering(g, reach, inEdges) && StopsAt(g, inEdges, alter, at) && c in reach
    requires c < |g| && !AvoidsAt(g, c, at.b, st, p, n)
    ensures c in at.done + {at.b}
    decreases n
  {
    hide IsReach, Exec, Taken, Progress, Doomed;
    if n > 0 {
      var m := Exec(g[c].stmts, st, p).value;
      var side := Taken(g[c].s, m);
      var d, e := g[c].Succ(side), EdgeOf(g, c, side);
      NextReached(g, root, reach, c, side);
      TrailDone(g, inEdges, alter, root, reach, at, d, m, p, n - 1);
      assert Tail(g, e) == c && Head(g, e) == d && EntersAt(g, reach, inEdges, d, e);
      var i :| 0 <= i < |inEdges[d]| && inEdges[d][i] == e;
      assert PredsDone(g, inEdges, at.done, d);
    }
  }

  lemma {:induction false} NextReached(g: Graph, root: Id, reach: set<Id>, c: Id, side: bool)
    requires Closed(g) && IsReach(g, root, reach) && c in reach && g[c].s.Jmp?
    ensures g[c].Succ(side) in reach
  {
    assert g[c].Succ(side) in SuccSet(g, c);
  }

  /** The numbers a block inherits from treated blocks hold on entry. */
  lemma {:induction false} DoneCarries(g: Graph, s: Snapshot, inEdges: seq<seq<EdgeId>>, alter: bool, reach: set<Id>, done: set<Id>,
                                       b: Id, side: bool, st: State, p: Packet)
    requires Closed(g) && Entering(g, reach, inEdges) && Progress(g, s, inEdges, alter, done) && b in reach && b < |g| && g[b].s.Jmp?
    requires g[b].Succ(side) < |g| && PredsDone(g, inEdges, done, g[b].Succ(side))
    requires Issued(s.val[b], |s.den|) && Holds(SymOf(s.den, s.val[b]), st, p)
    ensures EntryHolds(g, s, inEdges, g[b].Succ(side), st, p)
  {
    hide DoneAt, TermHolds;
    var c, e := g[b].Succ(side), EdgeOf(g, b, side);
    assert Tail(g, e) == b && Head(g, e) == c;
    assert EntersAt(g, reach, inEdges, c, e);
    var i :| 0 <= i < |inEdges[c]| && inEdges[c][i] == e;
    EntryIssued(g, s, inEdges, alter, done, c);
    var entry := EntryVals(g, s, inEdges, c);
    forall a: Atom ensures TermHolds(SymOf(s.den, entry)[a], st[a], p) {
      var nums := PredNumbers(g, inEdges[c], s.val, a);
      assert nums[i] == s.val[b][a];
      UnknownHolds(st[a], p);
      assert TermHolds(SymOf(s.den, s.val[b])[a], st[a], p);
    }
  }

  lemma {:induction false} StartHolds(g: Graph, lv: Blocks.Levels, s: Snapshot, inEdges: seq<seq<EdgeId>>, alter: bool, root: Id, reach: set<Id>,
                                      done: set<Id>, st: State, p: Packet)
    requires Leveled(g, lv) && IsReach(g, root, reach) && Entering(g, reach, inEdges) && Progress(g, s, inEdges, alter, done)
    requires PredsDone(g, inEdges, done, root)
    ensures EntryHolds(g, s, inEdges, root, st, p)
  {
    hide DoneAt, TermHolds;
    if |inEdges[root]| > 0 {
      var e := inEdges[root][0];
      assert EntersAt(g, reach, inEdges, root, e);
      RootOnTop(g, lv, root, reach, Tail(g, e));
      assert false;
    }
    EntryIssued(g, s, inEdges, alter, done, root);
    var entry := EntryVals(g, s, inEdges, root);
    forall a: Atom ensures TermHolds(SymOf(s.den, entry)[a], st[a], p) {
      assert entry[a] == Common(PredNumbers(g, inEdges[root], s.val, a));
      UnknownHolds(st[a], p);
    }
  }

  lemma {:induction false} NothingFirm(sym: Sym)
    ensures Firm(sym, {})
  {
  }

  lemma {:induction false} TrailStops(g: Graph, inEdges: seq<seq<EdgeId>>, root: Id, reach: set<Id>, at: Halt,
                                      c: Id, st: State, p: Packet, n: nat)
    requires Closed(g) && IsReach(g, root, reach) && Entering(g, reach, inEdges) && StopsAt(g, inEdges, true, at)
    requires c in reach && c < |g| && EntryHolds(g, at.s, inEdges, c, st, p)
    requires forall d {:trigger g[d]} :: 0 <= d < |g| ==> Exposed(g[d].stmts) == {}
    ensures AvoidsAt(g, c, at.b, st, p, n)
    decreases n
  {
    hide IsReach, Exec, Taken, Entering, Holds, Exposed, PredsDone, Firm;
    if !AvoidsAt(g, c, at.b, st, p, n) {
      TrailDone(g, inEdges, true, root, reach, at, c, st, p, n);
      var entry := SymOf(at.s.den, EntryVals(g, at.s, inEdges, c));
      NothingFirm(entry);
      if c != at.b {
        assert DoneAt(g, at.s, inEdges, true, c);
        assert CarriesAt(g[c].stmts, at.s.node[c].stmts, entry, SymOf(at.s.den, at.s.val[c]), st, p);
        if n > 0 {
          var m := Exec(g[c].stmts, st, p).value;
          var side := Taken(g[c].s, m);
          NextReached(g, root, reach, c, side);
          TrailDone(g, inEdges, true, root, reach, at, g[c].Succ(side), m, p, n - 1);
          DoneCarries(g, at.s, inEdges, true, reach, at.done, c, side, m, p);
          TrailStops(g, inEdges, root, reach, at, g[c].Succ(side), m, p, n - 1);
        }
      }
    }
  }

  /** A pass that stops has found a block that no run gets through, if blocks set what they read. */
  lemma {:induction false} StopsImpassable(g: Graph, lv: Blocks.Levels, inEdges: seq<seq<EdgeId>>, root: Id, reach: set<Id>, at: Halt)
    requires Leveled(g, lv) && IsReach(g, root, reach) && Entering(g, reach, inEdges) && StopsAt(g, inEdges, true, at)
    requires forall d {:trigger g[d]} :: 0 <= d < |g| ==> Exposed(g[d].stmts) == {}
    ensures Impassable(g, root, at.b)
  {
    hide IsReach, Entering, Progress, Doomed, PredsDone, Exposed, AvoidsAt, EntryHolds;
    RootReached(g, root, reach);
    forall st: State, p: Packet, n: nat ensures AvoidsAt(g, root, at.b, st, p, n) {
      if !AvoidsAt(g, root, at.b, st, p, n) {
        TrailDone(g, inEdges, true, root, reach, at, root, st, p, n);
        StartHolds(g, lv, at.s, inEdges, true, root, reach, at.done, st, p);
        TrailStops(g, inEdges, root, reach, at, root, st, p, n);
      }
    }
  }

  lemma {:induction false} RootReached(g: Graph, root: Id, reach: set<Id>)
    requires IsReach(g, root, reach)
    ensures root in reach && root < |g|
  {
  }
}
