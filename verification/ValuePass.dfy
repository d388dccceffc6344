/** One value-numbering pass over all reachable blocks. */
module ValuePass {
  import opened Bpf
  import opened Blocks
  import opened Reach
  import opened Levels
  import opened Dominators
  import opened InEdges
  import opened Values
  import opened Treatments
  import opened Numbering
  import opened ValueFlow

  predicate AllAre(nums: seq<nat>, v: nat) { forall i :: 0 <= i < |nums| ==> nums[i] == v }

  /** The number all predecessors agree on, or 0. */
  function Common(nums: seq<nat>): nat {
    if |nums| > 0 && AllAre(nums, nums[0]) then nums[0] else 0
  }

  predicate TailsIn(g: Graph, edges: seq<EdgeId>, n: nat) {
    forall i {:trigger edges[i]} :: 0 <= i < |edges| ==> edges[i] < 2 * |g| && Tail(g, edges[i]) < n
  }

  function PredNumbers(g: Graph, edges: seq<EdgeId>, val: seq<Vals>, a: Atom): (r: seq<nat>)
    requires TailsIn(g, edges, |val|)
    ensures |r| == |edges| && forall i {:trigger r[i]} :: 0 <= i < |r| ==> r[i] == val[Tail(g, edges[i])][a]
  {
    seq(|edges|, i requires 0 <= i < |edges| => val[Tail(g, edges[i])][a])
  }

  /** The numbers a block starts with. */
  function Inherited(g: Graph, edges: seq<EdgeId>, val: seq<Vals>): (r: Vals)
    requires TailsIn(g, edges, |val|)
    ensures forall a: Atom {:trigger r[a]} :: r[a] == Common(PredNumbers(g, edges, val, a))
  {
    seq(N_ATOMS, (a: nat) requires a < N_ATOMS => Common(PredNumbers(g, edges, val, a)))
  }

  lemma {:induction false} CommonPrefix(nums: seq<nat>, k: nat)
    requires 0 < k < |nums|
    ensures Common(nums[..k+1]) == if Common(nums[..k]) != nums[k] then 0 else Common(nums[..k])
  {
    assert nums[..k+1] == nums[..k] + [nums[k]];
    assert nums[..k+1][0] == nums[..k][0] == nums[0];
    if AllAre(nums[..k], nums[0]) && nums[k] == nums[0] {
      assert AllAre(nums[..k+1], nums[0]);
    } else {
      assert !AllAre(nums[..k+1], nums[0]) by {
        if AllAre(nums[..k+1], nums[0]) {
          assert nums[..k+1][k] == nums[k];
          forall i | 0 <= i < k ensures nums[..k][i] == nums[0] {
            assert nums[..k+1][i] == nums[..k][i];
          }
          assert false;
        }
      }
    }
  }

  /** Take the numbers of the first predecessor and blank those another one disagrees with. */
  method Inherit(g: Graph, edges: seq<EdgeId>, val: seq<Vals>) returns (r: Vals)
    requires TailsIn(g, edges, |val|)
    ensures r == Inherited(g, edges, val)
  {
    r := seq(N_ATOMS, _ => 0);
    if |edges| > 0 {
      r := val[Tail(g, edges[0])];
      var k := 1;
      while k < |edges|
        invariant 1 <= k <= |edges|
        invariant forall a: Atom {:trigger r[a]} :: r[a] == Common(PredNumbers(g, edges, val, a)[..k])
      {
        var other := val[Tail(g, edges[k])];
        ghost var was := r;
        var i := 0;
        while i < N_ATOMS
          invariant 0 <= i <= N_ATOMS
          invariant forall a: Atom {:trigger r[a]} :: r[a] == if a < i && was[a] != other[a] then 0 else was[a]
        {
          if r[i] != other[i] { r := r[i := 0]; }
          i := i + 1;
        }
        forall a: Atom ensures r[a] == Common(PredNumbers(g, edges, val, a)[..k+1]) {
          CommonPrefix(PredNumbers(g, edges, val, a), k);
        }
        k := k + 1;
      }
      forall a: Atom ensures r[a] == Common(PredNumbers(g, edges, val, a)) {
        assert PredNumbers(g, edges, val, a)[..k] == PredNumbers(g, edges, val, a);
      }
    }
    assert forall a: Atom {:trigger r[a]} :: r[a] == Inherited(g, edges, val)[a];
  }

  /** Value numbers the statements of a set of blocks may take, and those the table has room for. */
  function Budget(g: Graph, done: set<Id>, n: nat): nat
    requires n <= |g|
  {
    if n == 0 then 0 else Budget(g, done, n - 1) + (if n - 1 in done then 2 * |Live(g[n-1].stmts)| + 1 else 0)
  }

  function MaxStmts(g: Graph, n: nat): nat
    requires n <= |g|
  {
    if n == 0 then 0 else MaxStmts(g, n - 1) + |Live(g[n-1].stmts)| + 1
  }

  lemma {:induction false} BudgetAdd(g: Graph, done: set<Id>, b: Id, n: nat)
    requires n <= |g| && b < |g| && b !in done
    ensures Budget(g, done + {b}, n) == Budget(g, done, n) + (if b < n then 2 * |Live(g[b].stmts)| + 1 else 0)
  {
    if n != 0 { BudgetAdd(g, done, b, n - 1); }
  }

  lemma {:induction false} BudgetBound(g: Graph, done: set<Id>, n: nat)
    requires n <= |g|
    ensures Budget(g, done, n) <= 2 * MaxStmts(g, n)
    ensures n > 0 ==> MaxStmts(g, n) > 0
  {
    if n != 0 { BudgetBound(g, done, n - 1); }
  }

  lemma {:induction false} BudgetNone(g: Graph, n: nat)
    requires n <= |g|
    ensures Budget(g, {}, n) == 0
  {
    if n != 0 { BudgetNone(g, n - 1); }
  }

  /** The operand a branch compares A with. */
  predicate OperandNumber(br: Branch, oval: nat, val: Vals, den: seq<Term>)
    requires oval < |den|
  {
    match br
    case Jmp(_, X) => oval == val[X_ATOM]
    case Jmp(_, K(k)) => den[oval] == Const(k)
    case RetK(k) => den[oval] == Const(k)
    case RetA => den[oval] == Const(0)
  }

  // The state of a pass: graph, numbers of atoms at block ends, operand numbers, meanings and keys of the numbers.
  datatype Snapshot = Snapshot(node: Graph, val: seq<Vals>, oval: seq<nat>, den: seq<Term>, keys: seq<Key>)

  predicate Shaped(orig: Graph, s: Snapshot, inEdges: seq<seq<EdgeId>>) {
    && |orig| == |s.node| == |s.val| == |s.oval| == |inEdges|
    && forall c {:trigger inEdges[c]} :: 0 <= c < |orig| ==> TailsIn(orig, inEdges[c], |orig|)
  }

  function EntryVals(orig: Graph, s: Snapshot, inEdges: seq<seq<EdgeId>>, b: Id): Vals
    requires Shaped(orig, s, inEdges) && b < |orig|
  {
    Inherited(orig, inEdges[b], s.val)
  }

  /** Block b has been treated: its numbers and statements are what its entry numbers call for. */
  ghost predicate DoneAt(orig: Graph, s: Snapshot, inEdges: seq<seq<EdgeId>>, alter: bool, b: Id)
    requires Shaped(orig, s, inEdges) && b < |orig|
  {
    var entry := EntryVals(orig, s, inEdges, b);
    && Issued(entry, |s.den|) && Issued(s.val[b], |s.den|) && s.oval[b] < |s.den|
    && s.node[b] == orig[b].(stmts := s.node[b].stmts)
    && Numbered(orig[b].stmts, s.node[b].stmts, SymOf(s.den, entry), SymOf(s.den, s.val[b]), alter)
    && ExactlyAll(orig[b].stmts, entry, alter, s.node[b].stmts, s.val[b], s.keys)
    && OperandNumber(orig[b].s, s.oval[b], s.val[b], s.den)
  }

  /** The atoms block b reads from outside have numbers on entry. */
  predicate ReadsKnown(orig: Graph, s: Snapshot, inEdges: seq<seq<EdgeId>>, b: Id)
    requires Shaped(orig, s, inEdges) && b < |orig|
  {
    var entry := EntryVals(orig, s, inEdges, b);
    forall a :: a in Exposed(orig[b].stmts) ==> entry[a] != 0
  }

  ghost predicate Progress(orig: Graph, s: Snapshot, inEdges: seq<seq<EdgeId>>, alter: bool, done: set<Id>) {
    && Shaped(orig, s, inEdges) && |s.den| > 0 && s.den[0] == Unknown && |s.keys| == |s.den| && Distinct(s.keys)
    && (forall b :: b in done ==> b < |orig|)
    && (forall b {:trigger DoneAt(orig, s, inEdges, alter, b)} :: b in done ==> DoneAt(orig, s, inEdges, alter, b))
    && (forall b {:trigger s.node[b]} :: 0 <= b < |orig| && b !in done ==> s.node[b] == orig[b])
    && ((forall b {:trigger ReadsKnown(orig, s, inEdges, b)} :: b in done ==> ReadsKnown(orig, s, inEdges, b)) ==> Whole(s.den))
  }

  // The predecessors of treated blocks have been treated.
  predicate PredsDone(orig: Graph, inEdges: seq<seq<EdgeId>>, done: set<Id>, b: Id)
    requires b < |inEdges|
  {
    forall i {:trigger inEdges[b][i]} :: 0 <= i < |inEdges[b]| ==> inEdges[b][i] < 2 * |orig| && Tail(orig, inEdges[b][i]) in done
  }

  /** Treating block b changes the entry numbers of no block whose predecessors are treated already. */
  lemma {:induction false} EntrySame(orig: Graph, s: Snapshot, s2: Snapshot, inEdges: seq<seq<EdgeId>>, done: set<Id>, b: Id, c: Id)
    requires Shaped(orig, s, inEdges) && Shaped(orig, s2, inEdges) && b < |orig| && c < |orig| && b !in done
    requires PredsDone(orig, inEdges, done, c) && forall m :: 0 <= m < |orig| && m != b ==> s2.val[m] == s.val[m]
    ensures EntryVals(orig, s2, inEdges, c) == EntryVals(orig, s, inEdges, c)
  {
    forall a: Atom ensures PredNumbers(orig, inEdges[c], s2.val, a) == PredNumbers(orig, inEdges[c], s.val, a) {
    }
    assert forall a: Atom :: EntryVals(orig, s2, inEdges, c)[a] == EntryVals(orig, s, inEdges, c)[a];
  }

  /** What has been shown of block c stays true when block b is treated. */
  lemma {:induction false} DoneKept(orig: Graph, s: Snapshot, s2: Snapshot, inEdges: seq<seq<EdgeId>>, alter: bool, done: set<Id>, b: Id, c: Id)
    requires Shaped(orig, s, inEdges) && Shaped(orig, s2, inEdges) && b < |orig| && c < |orig| && b !in done && c in done
    requires PredsDone(orig, inEdges, done, c) && DoneAt(orig, s, inEdges, alter, c) && s.den <= s2.den
    requires |s.keys| == |s.den| && s.keys <= s2.keys && Distinct(s2.keys)
    requires forall m :: 0 <= m < |orig| && m != b ==> s2.val[m] == s.val[m] && s2.node[m] == s.node[m] && s2.oval[m] == s.oval[m]
    ensures DoneAt(orig, s2, inEdges, alter, c)
  {
    hide Numbered, ExactlyAll, Distinct;
    EntrySame(orig, s, s2, inEdges, done, b, c);
    ExactlyAllGrows(orig[c].stmts, EntryVals(orig, s, inEdges, c), alter, s.node[c].stmts, s.val[c], s.keys, s2.keys);
    SymOfGrows(s.den, s2.den, EntryVals(orig, s, inEdges, c));
    SymOfGrows(s.den, s2.den, s.val[c]);
  }

  lemma {:induction false} ProgressNext(orig: Graph, s: Snapshot, s2: Snapshot, inEdges: seq<seq<EdgeId>>, alter: bool, done: set<Id>, b: Id)
    requires Progress(orig, s, inEdges, alter, done) && Shaped(orig, s2, inEdges) && b < |orig| && b !in done
    requires forall c :: c in done + {b} ==> PredsDone(orig, inEdges, done, c)
    requires forall m :: 0 <= m < |orig| && m != b ==> s2.val[m] == s.val[m] && s2.node[m] == s.node[m] && s2.oval[m] == s.oval[m]
    requires s.den <= s2.den && s.keys <= s2.keys && |s2.keys| == |s2.den| && Distinct(s2.keys) && DoneAt(orig, s2, inEdges, alter, b)
    requires Issued(EntryVals(orig, s, inEdges, b), |s.den|)
    requires Whole(s.den) && Firm(SymOf(s.den, EntryVals(orig, s, inEdges, b)), Exposed(orig[b].stmts)) ==> Whole(s2.den)
    ensures Progress(orig, s2, inEdges, alter, done + {b})
  {
    hide Numbered, Exposed, DoneAt, Distinct;
    forall c | c in done ensures DoneAt(orig, s2, inEdges, alter, c) {
      DoneKept(orig, s, s2, inEdges, alter, done, b, c);
    }
    if forall c {:trigger ReadsKnown(orig, s2, inEdges, c)} :: c in done + {b} ==> ReadsKnown(orig, s2, inEdges, c) {
      forall c | c in done ensures ReadsKnown(orig, s, inEdges, c) {
        EntrySame(orig, s, s2, inEdges, done, b, c);
        assert ReadsKnown(orig, s2, inEdges, c);
      }
      EntrySame(orig, s, s2, inEdges, done, b, b);
      assert ReadsKnown(orig, s2, inEdges, b);
      assert forall a: Atom {:trigger EntryVals(orig, s, inEdges, b)[a]} :: SymOf(s.den, EntryVals(orig, s, inEdges, b))[a] == s.den[EntryVals(orig, s, inEdges, b)[a]];
    }
  }

  /** Predecessors of the block to treat next, and of those treated, have been treated. */
  lemma {:induction false} PredsAbove(g: Graph, reach: set<Id>, level: seq<nat>, levels: seq<seq<Id>>, inEdges: seq<seq<EdgeId>>, i: nat, j: nat)
    requires Leveling(g, reach, level, levels) && Entering(g, reach, inEdges) && i < |g| && j < |levels[i]|
    ensures var done := Above(reach, level, levels, i, j);
      forall c :: c in done + {levels[i][j]} ==> c < |inEdges| && PredsDone(g, inEdges, done, c)
  {
    var done := Above(reach, level, levels, i, j);
    var b := levels[i][j];
    assert OnLevel(levels, level, reach, i, b);
    forall c | c in done + {b} ensures c in reach && c < |g| && PredsDone(g, inEdges, done, c) {
      assert OnLevel(levels, level, reach, i, c);
      forall k | 0 <= k < |inEdges[c]| ensures Tail(g, inEdges[c][k]) in done {
        var e := inEdges[c][k];
        assert EntersAt(g, reach, inEdges, c, e);
        LevelDescends(g, reach, level, levels, Tail(g, e), c);
      }
    }
  }

  lemma {:induction false} EntryIssued(orig: Graph, s: Snapshot, inEdges: seq<seq<EdgeId>>, alter: bool, done: set<Id>, b: Id)
    requires Progress(orig, s, inEdges, alter, done) && b < |orig| && PredsDone(orig, inEdges, done, b)
    ensures Issued(EntryVals(orig, s, inEdges, b), |s.den|)
  {
    forall a: Atom ensures EntryVals(orig, s, inEdges, b)[a] < |s.den| {
      var nums := PredNumbers(orig, inEdges[b], s.val, a);
      if |nums| > 0 { assert DoneAt(orig, s, inEdges, alter, Tail(orig, inEdges[b][0])); }
    }
  }

  lemma {:induction false} BlockDone(orig: Graph, s: Snapshot, inEdges: seq<seq<EdgeId>>, alter: bool, b: Id, entry: Vals)
    requires Shaped(orig, s, inEdges) && b < |orig| && EntryVals(orig, s, inEdges, b) == entry
    requires Issued(entry, |s.den|) && Issued(s.val[b], |s.den|) && s.oval[b] < |s.den| && s.node[b] == orig[b].(stmts := s.node[b].stmts)
    requires Numbered(orig[b].stmts, s.node[b].stmts, SymOf(s.den, entry), SymOf(s.den, s.val[b]), alter)
    requires ExactlyAll(orig[b].stmts, entry, alter, s.node[b].stmts, s.val[b], s.keys)
    requires OperandNumber(orig[b].s, s.oval[b], s.val[b], s.den)
    ensures DoneAt(orig, s, inEdges, alter, b)
  {
    hide Numbered, ExactlyAll, OperandNumber;
  }

  // Where a pass stops: with this state, after these blocks, at block b.
  datatype Halt = Halt(s: Snapshot, done: set<Id>, b: Id)

  /** The pass stops at a block, all the blocks before it treated: that block is doomed. */
  ghost predicate StopsAt(orig: Graph, inEdges: seq<seq<EdgeId>>, alter: bool, at: Halt) {
    var s, done, b := at.s, at.done, at.b;
    && Progress(orig, s, inEdges, alter, done) && b < |orig| && b !in done
    && (forall c :: c in done + {b} ==> c < |inEdges| && PredsDone(orig, inEdges, done, c))
    && Issued(EntryVals(orig, s, inEdges, b), |s.den|) && Doomed(orig[b].stmts, SymOf(s.den, EntryVals(orig, s, inEdges, b)))
  }

  lemma {:induction false} Stops(orig: Graph, s: Snapshot, inEdges: seq<seq<EdgeId>>, alter: bool, done: set<Id>, b: Id)
    requires Progress(orig, s, inEdges, alter, done) && b < |orig| && b !in done
    requires forall c :: c in done + {b} ==> c < |inEdges| && PredsDone(orig, inEdges, done, c)
    requires Issued(EntryVals(orig, s, inEdges, b), |s.den|) && Doomed(orig[b].stmts, SymOf(s.den, EntryVals(orig, s, inEdges, b)))
    ensures StopsAt(orig, inEdges, alter, Halt(s, done, b))
  {
    hide Progress, PredsDone, Doomed;
  }

  class Pass {
    const table: ValueTable
    var node: Graph
    var val: seq<Vals>
    var oval: seq<nat>

    constructor (g: Graph, t: ValueTable)
      ensures node == g && table == t && |val| == |oval| == |g|
    {
      node, table, val, oval := g, t, seq(|g|, _ => seq(N_ATOMS, _ => 0)), seq(|g|, _ => 0);
    }

    ghost function Snap(): Snapshot
      reads this, table
    {
      Snapshot(node, val, oval, table.den, table.keys)
    }

    /** Inherit the entry numbers, number the statements, and number the operand of the branch. */
    method OptBlk(b: Id, inEdges: seq<seq<EdgeId>>, alter: bool, ghost orig: Graph, ghost done: set<Id>) returns (ok: bool)
      requires table.Valid() && Progress(orig, Snap(), inEdges, alter, done) && b < |orig| && b !in done
      requires forall c :: c in done + {b} ==> c < |inEdges| && PredsDone(orig, inEdges, done, c)
      requires table.curval + 2 * |Live(orig[b].stmts)| + 1 < |table.vmap|
      modifies this, table
      ensures table.Valid() && |table.vmap| == |old(table.vmap)|
      ensures table.curval <= old(table.curval) + 2 * |Live(orig[b].stmts)| + 1
      ensures !alter || NoDivision(orig[b].stmts) ==> ok
      ensures ok ==> Progress(orig, Snap(), inEdges, alter, done + {b})
      ensures !ok ==> StopsAt(orig, inEdges, alter, Halt(old(Snap()), done, b))
    {
      hide DoneAt, StopsAt, Doomed, Progress, PredsDone, Numbered, Chained, Mapped, Denoted, Exposed, Firm, Whole, Live, ExactlyAll, Distinct, NumOf, NoDivision;
      ghost var s := Snap();
      ProgressFacts(orig, s, inEdges, alter, done, b);
      var entry := Inherit(node, inEdges[b], val);
      SameShape(orig, node, inEdges[b], val);
      EntryIssued(orig, s, inEdges, alter, done, b);
      var ss, out;
      ok, ss, out := OptStmts(table, node[b].stmts, entry, alter);
      if !ok {
        Stops(orig, s, inEdges, alter, done, b);
        return;
      }
      node, val := node[b := node[b].(stmts := ss)], val[b := out];
      ghost var den, keys := table.den, table.keys;
      if node[b].s.Jmp? && node[b].s.src.X? {
        oval := oval[b := out[X_ATOM]];
      } else {
        var k := match node[b].s case RetK(k) => k case RetA => 0 case Jmp(_, src) => src.k;
        var v := table.ConstNo(k);
        oval := oval[b := v];
      }
      SymOfGrows(s.den, den, entry);
      SymOfGrows(den, table.den, entry);
      SymOfGrows(den, table.den, out);
      KeysDistinct(table.hashtbl, table.keys);
      ExactlyAllGrows(orig[b].stmts, entry, alter, ss, out, keys, table.keys);
      EntrySame(orig, s, Snap(), inEdges, done, b, b);
      BlockDone(orig, Snap(), inEdges, alter, b, entry);
      ProgressNext(orig, s, Snap(), inEdges, alter, done, b);
    }

    /** Number every reachable block, top level first. The table is large enough: the last
        number given out is below the size it was made with. */
    method OptBlks(root: Id, level: seq<nat>, levels: seq<seq<Id>>, inEdges: seq<seq<EdgeId>>, alter: bool, ghost reach: set<Id>)
      returns (ok: bool, ghost at: Halt)
      requires |val| == |oval| == |node| && IsReach(node, root, reach)
      requires Leveling(node, reach, level, levels) && Entering(node, reach, inEdges)
      requires 3 * MaxStmts(node, |node|) <= |table.vmap|
      modifies this, table
      ensures table.Valid() && table.curval < |table.vmap| == |old(table.vmap)|
      ensures !alter || (forall b {:trigger old(node)[b]} :: 0 <= b < |old(node)| ==> NoDivision(old(node)[b].stmts)) ==> ok
      ensures ok ==> Progress(old(node), Snap(), inEdges, alter, reach)
      ensures !ok ==> at.b in reach && StopsAt(old(node), inEdges, alter, at)
    {
      hide StopsAt, Progress, Leveling, IsReach, Above, Entering, PredsDone, Chained, Mapped, Denoted, Live, Firm, NoDivision;
      ghost var orig := node;
      AboveEnds(node, root, reach, level, levels);
      BudgetBound(orig, {}, |orig|);
      table.InitVal();
      PassStart(orig, Snap(), reach, level, levels, inEdges, alter);
      BudgetNone(orig, |orig|);
      ok, at := true, Halt(Snap(), {}, root);
      var i := level[root];
      while i >= 0
        invariant -1 <= i < |levels| == |orig| && table.Valid() && |table.vmap| == |old(table.vmap)|
        invariant Progress(orig, Snap(), inEdges, alter, Above(reach, level, levels, i, 0))
        invariant table.curval <= Budget(orig, Above(reach, level, levels, i, 0), |orig|)
      {
        var j := 0;
        while j < |levels[i]|
          invariant 0 <= j <= |levels[i]| && table.Valid() && |table.vmap| == |old(table.vmap)|
          invariant Progress(orig, Snap(), inEdges, alter, Above(reach, level, levels, i, j))
          invariant table.curval <= Budget(orig, Above(reach, level, levels, i, j), |orig|)
        {
          ghost var done := Above(reach, level, levels, i, j);
          at := Halt(Snap(), done, levels[i][j]);
          AboveNext(orig, reach, level, levels, i, j);
          PredsAbove(orig, reach, level, levels, inEdges, i, j);
          BudgetAdd(orig, done, levels[i][j], |orig|);
          BudgetBound(orig, done + {levels[i][j]}, |orig|);
          ok := OptBlk(levels[i][j], inEdges, alter, orig, done);
          if !ok { return; }
          j := j + 1;
        }
        AboveDrop(orig, reach, level, levels, i);
        i := i - 1;
      }
      BudgetBound(orig, reach, |orig|);
    }
  }

  lemma {:induction false} PassStart(g: Graph, s: Snapshot, reach: set<Id>, level: seq<nat>, levels: seq<seq<Id>>, inEdges: seq<seq<EdgeId>>, alter: bool)
    requires s.node == g && |s.val| == |s.oval| == |g| && Leveling(g, reach, level, levels) && Entering(g, reach, inEdges)
    requires s.den == [Unknown] && |s.keys| == 1
    ensures Progress(g, s, inEdges, alter, {})
  {
    forall c | 0 <= c < |g| ensures TailsIn(g, inEdges[c], |g|) {
      forall k | 0 <= k < |inEdges[c]| ensures inEdges[c][k] < 2 * |g| {
      }
    }
  }

  lemma {:induction false} ProgressFacts(orig: Graph, s: Snapshot, inEdges: seq<seq<EdgeId>>, alter: bool, done: set<Id>, b: Id)
    requires Progress(orig, s, inEdges, alter, done) && b < |orig| && b !in done
    ensures Shaped(orig, s, inEdges) && s.node[b] == orig[b]
  {
  }

  lemma {:induction false} ProgressSizes(orig: Graph, s: Snapshot, inEdges: seq<seq<EdgeId>>, alter: bool, done: set<Id>)
    requires Progress(orig, s, inEdges, alter, done)
    ensures |s.val| == |s.oval| == |orig| == |inEdges|
  {
  }

  lemma {:induction false} SameShape(g: Graph, g2: Graph, edges: seq<EdgeId>, val: seq<Vals>)
    requires |g| == |g2| && TailsIn(g, edges, |val|)
    ensures TailsIn(g2, edges, |val|) && Inherited(g2, edges, val) == Inherited(g, edges, val)
  {
    forall a: Atom ensures PredNumbers(g, edges, val, a) == PredNumbers(g2, edges, val, a) {
    }
    assert forall a: Atom :: Inherited(g2, edges, val)[a] == Inherited(g, edges, val)[a];
  }
}
