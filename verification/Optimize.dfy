/** The compiler with optimizer rounds between generation and flattening. */
module Optimize {
  import opened Words
  import opened Bpf
  import opened Blocks
  import opened Layout
  import opened Program
  import opened Flatten
  import opened Filters
  import opened Walks
  import opened Compiler
  import opened Rounds
  import opened FoldRounds
  import opened StatementRounds
  import opened PeepRounds
  import Backpatch
  import Crossings
  import Intern
  import PeepRuns
  import Roots

  /** g2 is what n rounds make of g: in each dead stores are dropped, and then every edge is moved to its goal. */
  ghost predicate RoundsOf(g: Graph, root: Id, lv: Blocks.Levels, n: nat, g2: Graph) {
    if n == 0 then g2 == g
    else exists g0, g1, log {:trigger BranchRoundOf(g0, g1, g2, root, lv, log)} :: RoundsOf(g, root, lv, n - 1, g0) && BranchRoundOf(g0, g1, g2, root, lv, log)
  }

  ghost predicate BranchRoundOf(g0: Graph, g1: Graph, g2: Graph, root: Id, lv: Blocks.Levels, log: FoldLog) {
    StoresDropped(g0, g1, root, lv) && FoldOf(g1, root, lv, g2, log)
  }

  /** Drop dead stores and promote edges, any number of times over. */
  method BranchRounds(g: Graph, root: Id, rounds: nat, ghost lv: Blocks.Levels) returns (g2: Graph)
    requires Leveled(g, lv) && root < |g| && Backpatch.OwnFrom(g, 0)
    ensures KeepsResults(g, g2, root, lv) && Backpatch.OwnFrom(g2, 0) && FormKept(g, g2) && RoundsOf(g, root, lv, rounds, g2)
  {
    hide Run, Backpatch.OwnFrom, FoldOf, Crossings.CrossesOnly, FormKept, StoresDropped;
    g2 := g;
    SameAsSelf(g);
    SameForm(g, g);
    ghost var log;
    var i := 0;
    while i < rounds
      invariant KeepsResults(g, g2, root, lv) && Backpatch.OwnFrom(g2, 0) && FormKept(g, g2) && i <= rounds && RoundsOf(g, root, lv, i, g2)
    {
      OwnSealed(g2);
      ghost var before, g0 := g2, g2;
      g2 := DeadStoreRound(g2, root, lv);
      FormOwns(g0, g2);
      FormThen(g, g0, g2);
      g0 := g2;
      g2, log := FoldRound(g2, root, lv);
      FormOwns(g0, g2);
      FormThen(g, g0, g2);
      assert BranchRoundOf(before, g0, g2, root, lv, log);
      i := i + 1;
    }
  }

  // How compilation ends.
  datatype Status = Compiled | NoSnaplen | TooManyRegisters | RejectsAll | DividesByZero

  /** Compile with any number of rounds of dead-store removal and edge promotion, a last removal, the merging of equal blocks and
      the skipping of branches at the root. Wherever evaluating the filter does not fault, the program returns snaplen for the
      packets the filter accepts and 0 for the others. A filter said to reject everything accepts nothing. */
  method PcapCompileOptimized(f: Option<Filter>, snaplen: Word, rounds: nat) returns (status: Status, code: array<Insn>, ghost made: Made)
    requires Acceptable(f)
    ensures status == NoSnaplen <==> snaplen == 0
    ensures status == TooManyRegisters <==> snaplen != 0 && !Compiles(f)
    ensures status == RejectsAll ==> forall p: Packet :: Accepts(f, p) != Some(true)
    ensures snaplen != 0 && Compiles(f) ==> OptimizedBy(made, rounds) && GraphOf(f, snaplen, made.g, made.root, made.lv)
    ensures status == RejectsAll <==> snaplen != 0 && Compiles(f) && made.root2 < |made.g2| && made.g2[made.root2].s == RetK(0)
    ensures status == Compiled ==> Laid(made, code[..])
    ensures status != DividesByZero
    ensures status == Compiled ==> fresh(code) && Forward(code[..])
    ensures status == Compiled ==> forall st: State, p: Packet ::
      (Accepts(f, p) == Some(true) ==> RunCode(code[..], 0, st, p) == Return(snaplen))
      && (Accepts(f, p) == Some(false) ==> RunCode(code[..], 0, st, p) == Return(0))
  {
    hide Assembled, Backpatch.OwnFrom, Accepts, Compiles, Intern.Shared, Closed, ReturnsConstants, KeepsResults, Run, OptimizedBy, Roots.RootOf;
    code := new Insn[0];
    made := Made([], 0, [], [], [], [], [], 0, [], [], []);
    if snaplen == 0 { return NoSnaplen, code, made; }
    var ok, g, root;
    ghost var lv, lv4, retries;
    ok, g, root, lv := Generate(f, snaplen);
    if !ok { return TooManyRegisters, code, made; }
    var g5, root5;
    g5, root5, lv4, made := BranchesOptimized(g, root, rounds, lv);
    if g5[root5].s == RetK(0) {
      forall p: Packet ensures Accepts(f, p) != Some(true) {
        NothingAccepted(g, root, lv, g5, root5, lv4, f, snaplen, p);
      }
      return RejectsAll, code, made;
    }
    var asm := new Assembler(g5);
    code, retries := asm.IcodeToFcode(root5, lv4);
    made := made.(marks := asm.long, offsets := asm.offset);
    OptimizedSame(made.(marks := [], offsets := []), made, rounds);
    status := Compiled;
    forall st: State, p: Packet
      ensures Accepts(f, p) == Some(true) ==> RunCode(code[..], 0, st, p) == Return(snaplen)
      ensures Accepts(f, p) == Some(false) ==> RunCode(code[..], 0, st, p) == Return(0)
    {
      assert Run(g, root, st, p, lv[root] + 1) == Returns(Accepts(f, p), snaplen);
      assert SameResultAt(g, root, lv, g5, root5, lv4, st, p);
    }
  }

  // How a program came about: the generated graph; what the rounds, the last removal of dead stores and merging made of it; the graph
  // and root in the end; the marks and offsets it was laid out with.
  datatype Made = Made(g: Graph, root: Id, lv: Blocks.Levels, branched: Graph, cleaned: Graph, merged: Graph, g2: Graph, root2: Id, lv2: Blocks.Levels,
                       marks: Marks, offsets: seq<nat>)

  /** A graph that returns what the filter says. */
  ghost predicate GraphOf(f: Option<Filter>, snaplen: Word, g: Graph, root: Id, lv: Blocks.Levels) {
    && Leveled(g, lv) && root < |g|
    && forall st: State, p: Packet, fuel: nat :: lv[root] < fuel ==> Run(g, root, st, p, fuel) == Returns(Accepts(f, p), snaplen)
  }

  /** Each step was the one the optimizer takes: the rounds, dead stores, merging until nothing is equal, skipping at the root. */
  ghost predicate OptimizedBy(m: Made, rounds: nat) {
    && RoundsOf(m.g, m.root, m.lv, rounds, m.branched) && StoresDropped(m.branched, m.cleaned, m.root, m.lv)
    && SameBlocks(m.cleaned, m.merged) && Intern.Shared(m.merged, m.root) && Roots.RootOf(m.merged, m.root, m.lv2, m.g2, m.root2)
  }

  lemma {:induction false} OptimizedSame(m: Made, m2: Made, rounds: nat)
    requires OptimizedBy(m, rounds) && m == m2.(marks := m.marks, offsets := m.offsets)
    ensures OptimizedBy(m2, rounds)
  {
    hide RoundsOf, StoresDropped, SameBlocks, Intern.Shared, Roots.RootOf;
  }

  // The code is the layout of the graph in the end.
  ghost predicate Laid(m: Made, code: seq<Insn>) {
    Leveled(m.g2, m.lv2) && m.root2 < |m.g2| && Assembled(m.g2, m.lv2, m.marks, m.offsets, code, m.root2)
  }

  // Runs from root2 of g2 end as those from root of g do, unless those fault.
  ghost predicate SameResults(g: Graph, root: Id, lv: Blocks.Levels, g2: Graph, root2: Id, lv2: Blocks.Levels) {
    && Leveled(g, lv) && Leveled(g2, lv2) && root < |g| && root2 < |g2|
    && forall st: State, p: Packet :: SameResultAt(g, root, lv, g2, root2, lv2, st, p)
  }

  predicate SameResultAt(g: Graph, root: Id, lv: Blocks.Levels, g2: Graph, root2: Id, lv2: Blocks.Levels, st: State, p: Packet)
    requires Leveled(g, lv) && Leveled(g2, lv2) && root < |g| && root2 < |g2|
  {
    var r := Run(g, root, st, p, lv[root] + 1);
    r == Fault || Run(g2, root2, st, p, lv2[root2] + 1) == r
  }

  /** The optimizer without the rewriting of statements. */
  method BranchesOptimized(g: Graph, root: Id, rounds: nat, ghost lv: Blocks.Levels)
    returns (g2: Graph, root2: Id, ghost lv2: Blocks.Levels, ghost made: Made)
    requires Leveled(g, lv) && root < |g| && Backpatch.OwnFrom(g, 0) && ReturnsConstants(g)
    ensures SameResults(g, root, lv, g2, root2, lv2)
    ensures !g2[root2].s.Jmp? ==> g2[root2].stmts == []
    ensures OptimizedBy(made, rounds) && made.g == g && made.root == root && made.lv == lv && made.g2 == g2 && made.root2 == root2 && made.lv2 == lv2
    ensures made.marks == [] && made.offsets == []
  {
    hide RoundsOf, StoresDropped, Backpatch.OwnFrom, Intern.Shared, ReturnsConstants, Run, FormKept, Roots.RootOf, Crossings.CrossesOnly;
    g2 := BranchRounds(g, root, rounds, lv);
    OwnSealed(g2);
    var g3 := DeadStoreRound(g2, root, lv);
    var g4;
    g4, lv2 := InternRound(g3, root, lv);
    ghost var n := lv2[root] + 1;
    FormOwns(g, g2);
    FormOwns(g2, g3);
    FormOwns(g3, g4);
    var ok, g5;
    ok, g5, root2 := Roots.OptRoot(g4, root, lv2);
    OwnCrossesNothing(g4, root);
    Crossings.CrossesMore(g4, root, {});
    Roots.RootIsSafe(g4, root, lv2, g5, root2);
    Roots.RootLeveled(g4, root, lv2, g5, root2);
    RootPlain(g4, root, lv2, g5, root2);
    forall st: State, p: Packet ensures SameResultAt(g, root, lv, g5, root2, lv2, st, p) {
      assert Run(g2, root, st, p, lv[root] + 1) == Run(g2, root, st, p, lv[root] + 1);
      assert Run(g4, root, st, p, n) == Run(g3, root, st, p, lv[root] + 1);
      RunTerminates(g5, lv2, root2, st, p, n);
    }
    made := Made(g, root, lv, g2, g3, g4, g5, root2, lv2, [], []);
    g2 := g5;
  }

  lemma {:induction false} RootPlain(g: Graph, root: Id, lv: Blocks.Levels, g2: Graph, root2: Id)
    requires Roots.RootOf(g, root, lv, g2, root2)
    ensures root2 < |g2| && (!g2[root2].s.Jmp? ==> g2[root2].stmts == [])
  {
  }

  lemma {:induction false} NothingAccepted(g: Graph, root: Id, lv: Blocks.Levels, g2: Graph, root2: Id, lv2: Blocks.Levels,
                                           f: Option<Filter>, snaplen: Word, p: Packet)
    requires SameResults(g, root, lv, g2, root2, lv2) && snaplen != 0
    requires g2[root2].s == RetK(0) && g2[root2].stmts == []
    requires forall st: State, p: Packet, fuel: nat :: lv[root] < fuel ==> Run(g, root, st, p, fuel) == Returns(Accepts(f, p), snaplen)
    ensures Accepts(f, p) != Some(true)
  {
    hide Accepts;
    var st: State := seq(N_ATOMS, _ => 0);
    assert Run(g, root, st, p, lv[root] + 1) == Returns(Accepts(f, p), snaplen);
    assert SameResultAt(g, root, lv, g2, root2, lv2, st, p);
    assert Exec([], st, p) == Some(st);
    assert Run(g2, root2, st, p, lv2[root2] + 1) == Return(0);
  }

  // The same with the rewriting of statements: after the rounds, rewritten, cleaned and merged.
  datatype Rewritten = Rewritten(g: Graph, root: Id, lv: Blocks.Levels, branched: Graph, rewritten: Graph, cleaned: Graph, g2: Graph, lv2: Blocks.Levels,
                                 marks: Marks, offsets: seq<nat>)

  ghost predicate RewrittenBy(m: Rewritten, rounds: nat) {
    && RoundsOf(m.g, m.root, m.lv, rounds, m.branched) && SeparateOf(m.branched, m.rewritten, m.cleaned, m.root, m.lv)
    && SameBlocks(m.cleaned, m.g2) && Intern.Shared(m.g2, m.root)
  }

  lemma {:induction false} RewrittenSame(m: Rewritten, m2: Rewritten, rounds: nat)
    requires RewrittenBy(m, rounds) && m == m2.(marks := m.marks, offsets := m.offsets)
    ensures RewrittenBy(m2, rounds)
  {
    hide RoundsOf, SeparateOf, SameBlocks, Intern.Shared;
  }

  // After the rounds over branches there is a block that no run gets through.
  ghost predicate Blocked(m: Rewritten, rounds: nat) {
    RoundsOf(m.g, m.root, m.lv, rounds, m.branched) && Stuck(m.branched, m.root)
  }

  ghost predicate LaidOut(m: Rewritten, code: seq<Insn>) {
    Leveled(m.g2, m.lv2) && m.root < |m.g2| && Assembled(m.g2, m.lv2, m.marks, m.offsets, code, m.root)
  }

  /** The optimizer with the rewriting of statements, dead stores being dropped by what is live afterwards. */
  method StatementsOptimized(g: Graph, root: Id, rounds: nat, ghost lv: Blocks.Levels)
    returns (ok: bool, g2: Graph, ghost lv2: Blocks.Levels, ghost made: Rewritten)
    requires Leveled(g, lv) && root < |g| && Backpatch.OwnFrom(g, 0) && ReturnsConstants(g)
    ensures DividesNowhere(g) ==> ok
    ensures !ok ==> made.g == g && made.root == root && made.lv == lv && Blocked(made, rounds)
    ensures ok ==> SameResults(g, root, lv, g2, root, lv2)
    ensures ok ==> RewrittenBy(made, rounds) && made.g == g && made.root == root && made.lv == lv && made.g2 == g2 && made.lv2 == lv2
  {
    hide RoundsOf, SeparateOf, Backpatch.OwnFrom, Intern.Shared, ReturnsConstants, DividesNowhere, FormKept, Run, Stuck;
    var g1 := BranchRounds(g, root, rounds, lv);
    FormOwns(g, g1);
    lv2 := lv;
    var g3;
    ghost var h;
    ok, g3, h := SeparateRounds(g1, root, lv);
    g2 := g3;
    made := Rewritten(g, root, lv, g1, h, g3, g2, lv2, [], []);
    if !ok { return; }
    g2, lv2 := InternRound(g3, root, lv);
    made := made.(g2 := g2, lv2 := lv2);
    forall st: State, p: Packet ensures SameResultAt(g, root, lv, g2, root, lv2, st, p) {
      assert Run(g1, root, st, p, lv[root] + 1) == Run(g1, root, st, p, lv[root] + 1);
      assert Run(g2, root, st, p, lv2[root] + 1) == Run(g3, root, st, p, lv[root] + 1);
    }
  }

  /** Compile with any number of rounds of dead-store removal and edge promotion, the rewriting of statements, a last removal of dead
      stores and the merging of equal blocks. Wherever evaluating the filter does not fault, the program returns snaplen for the
      packets the filter accepts and 0 for the others. It may find a division by zero only if the filter divides. */
  method PcapCompileRewritten(f: Option<Filter>, snaplen: Word, rounds: nat) returns (status: Status, code: array<Insn>, ghost made: Rewritten)
    requires Acceptable(f)
    ensures status == NoSnaplen <==> snaplen == 0
    ensures status == TooManyRegisters <==> snaplen != 0 && !Compiles(f)
    ensures status == DividesByZero ==> MayDivide(f) && GraphOf(f, snaplen, made.g, made.root, made.lv) && Blocked(made, rounds)
    ensures status != RejectsAll
    ensures status == Compiled ==> RewrittenBy(made, rounds) && GraphOf(f, snaplen, made.g, made.root, made.lv) && LaidOut(made, code[..])
    ensures status == Compiled ==> fresh(code) && Forward(code[..])
    ensures status == Compiled ==> forall st: State, p: Packet ::
      (Accepts(f, p) == Some(true) ==> RunCode(code[..], 0, st, p) == Return(snaplen))
      && (Accepts(f, p) == Some(false) ==> RunCode(code[..], 0, st, p) == Return(0))
  {
    hide Assembled, Backpatch.OwnFrom, Accepts, Compiles, Closed, ReturnsConstants, Backpatch.TameFrom, DividesNowhere, Run, RewrittenBy, Blocked;
    code := new Insn[0];
    made := Rewritten([], 0, [], [], [], [], [], [], [], []);
    if snaplen == 0 { return NoSnaplen, code, made; }
    var ok, g, root, g2;
    ghost var lv, lv2, retries;
    ok, g, root, lv := Generate(f, snaplen);
    if !ok { return TooManyRegisters, code, made; }
    if !MayDivide(f) { TameDivides(g); }
    ok, g2, lv2, made := StatementsOptimized(g, root, rounds, lv);
    if !ok { return DividesByZero, code, made; }
    var asm := new Assembler(g2);
    code, retries := asm.IcodeToFcode(root, lv2);
    ghost var was := made;
    made := made.(marks := asm.long, offsets := asm.offset);
    RewrittenSame(was, made, rounds);
    status := Compiled;
    forall st: State, p: Packet
      ensures Accepts(f, p) == Some(true) ==> RunCode(code[..], 0, st, p) == Return(snaplen)
      ensures Accepts(f, p) == Some(false) ==> RunCode(code[..], 0, st, p) == Return(0)
    {
      assert Run(g, root, st, p, lv[root] + 1) == Returns(Accepts(f, p), snaplen);
      assert SameResultAt(g, root, lv, g2, root, lv2, st, p);
    }
  }

  lemma {:induction false} TameDivides(g: Graph)
    requires Backpatch.TameFrom(g, 0, false)
    ensures DividesNowhere(g)
  {
  }

  /** Of a generated graph the peephole rules keep every result, unless a block tests all bits. */
  method PeepGenerated(f: Option<Filter>, snaplen: Word) returns (ok: bool, g: Graph, g2: Graph, root: Id, ghost lv: Blocks.Levels, ghost log: PeepLog)
    requires Acceptable(f)
    ensures ok <==> Compiles(f)
    ensures ok ==> Leveled(g, lv) && Leveled(g2, lv) && root < |g| == |g2| && PeepsOf(g, root, log, g2)
    ensures ok && NoAllBits(g) ==> forall st: State, p: Packet, fuel: nat :: lv[root] < fuel && Accepts(f, p).Some? ==>
      Run(g2, root, st, p, fuel) == Returns(Accepts(f, p), snaplen)
  {
    hide Accepts, Compiles, ReturnsConstants, PlainReturns, PeepRuns.XSettled, NoAllBits, Run, Tame, Backpatch.OwnFrom;
    g2, log := [], PeepLog(ValuePass.Snapshot([], [], [], [], []), [], [], [], {});
    ok, g, root, lv := Generate(f, snaplen);
    if !ok { return; }
    PeepRuns.TameSettled(g, MayDivide(f));
    ok, g2, log := PeepRound(g, root, lv);
    if NoAllBits(g) {
      forall st: State, p: Packet, fuel: nat | lv[root] < fuel && Accepts(f, p).Some?
        ensures Run(g2, root, st, p, fuel) == Returns(Accepts(f, p), snaplen)
      {
        assert Run(g, root, st, p, fuel) == Returns(Accepts(f, p), snaplen);
      }
    }
  }
}
