/** Rewriting short sequences of statements and the branch of one block. */
module Peephole {
  import opened Words
  import opened Bpf
  import opened Blocks
  import opened Liveness
  import opened DeadStores
  import opened ValueFlow
  import opened Values
  import opened Treatments

  // The rewritten statements and the rest, with NOPs left out.
  predicate Window(ss: seq<Stmt>, i: nat, a: seq<Stmt>, rest: seq<Stmt>) {
    i <= |ss| && Live(ss[i..]) == a + rest
  }

  lemma {:induction false} LiveLiveIn(ss: seq<Stmt>, br: Branch, out: set<Atom>)
    ensures LiveIn(Live(ss), br, out) == LiveIn(ss, br, out)
  {
    hide Uses, Def;
    if |ss| != 0 {
      LiveLiveIn(ss[1..], br, out);
      if !ss[0].Nop? { assert Live(ss)[1..] == Live(ss[1..]); }
    }
  }

  lemma {:induction false} WindowExec(ss: seq<Stmt>, i: nat, a: seq<Stmt>, rest: seq<Stmt>, st: State, p: Packet)
    requires Window(ss, i, a, rest)
    ensures Exec(ss, st, p) == (match Exec(ss[..i], st, p)
                                case None => None
                                case Some(m) => match Exec(a, m, p) case None => None case Some(k) => Exec(rest, k, p))
  {
    hide Step;
    assert ss == ss[..i] + ss[i..];
    ExecConcat(ss[..i], ss[i..], st, p);
    if Exec(ss[..i], st, p).Some? {
      ExecLive(ss[i..], Exec(ss[..i], st, p).value, p);
      ExecConcat(a, rest, Exec(ss[..i], st, p).value, p);
    }
  }

  /** Replacing a window by statements that agree on all the rest needs keeps the block. */
  lemma {:induction false} WindowReplaced(ss: seq<Stmt>, ss2: seq<Stmt>, i: nat, a: seq<Stmt>, a2: seq<Stmt>, rest: seq<Stmt>,
                                          br: Branch, out: set<Atom>, S: set<Atom>)
    requires i <= |ss| && i <= |ss2| && Window(ss, i, a, rest) && Window(ss2, i, a2, rest) && ss[..i] == ss2[..i]
    requires Trimmed(a, a2, S) && LiveIn(rest, br, out) <= S
    ensures Trimmed(ss, ss2, out + CountedUses(br))
  {
    hide Step, LiveIn, Window;
    forall st: State, p ensures TrimmedAt(ss, ss2, out + CountedUses(br), st, p) {
      WindowExec(ss, i, a, rest, st, p);
      WindowExec(ss2, i, a2, rest, st, p);
      if Exec(ss[..i], st, p).Some? {
        var m := Exec(ss[..i], st, p).value;
        assert TrimmedAt(a, a2, S, m, p);
        if Exec(a, m, p).Some? {
          ExecAgrees(rest, br, out, Exec(a, m, p).value, Exec(a2, m, p).value, p);
        }
      }
    }
  }

  lemma {:induction false} ExecTwo(s: Stmt, t: Stmt, st: State, p: Packet)
    ensures Exec([s, t], st, p) == (match Step(s, st, p) case None => None case Some(m) => Step(t, m, p))
  {
    hide Step;
    assert [s, t] == [s] + [t];
    ExecConcat([s], [t], st, p);
    ExecOne(s, st, p);
    if Step(s, st, p).Some? { ExecOne(t, Step(s, st, p).value, p); }
  }

  /** st M[r]; ldx M[r] --> st M[r]; tax */
  lemma {:induction false} StoreLoad(r: Reg)
    ensures Trimmed([St(r), LdxMem(r)], [St(r), Tax], From(0))
  {
    forall st: State, p ensures TrimmedAt([St(r), LdxMem(r)], [St(r), Tax], From(0), st, p) {
      ExecTwo(St(r), LdxMem(r), st, p);
      ExecTwo(St(r), Tax, st, p);
    }
  }

  /** ld #k; tax --> ldx #k; txa */
  lemma {:induction false} LoadMove(k: Word)
    ensures Trimmed([LdImm(k), Tax], [LdxImm(k), Txa], From(0))
  {
    forall st: State, p ensures TrimmedAt([LdImm(k), Tax], [LdxImm(k), Txa], From(0), st, p) {
      ExecTwo(LdImm(k), Tax, st, p);
      ExecTwo(LdxImm(k), Txa, st, p);
    }
  }

  lemma {:induction false} SumSwap(k: Word, x: Word, off: Word)
    ensures Plus(Plus(k, x), off) == Plus(x, Plus(off, k))
  {
    ModSum(k + x, off);
    ModSum(off + k, x);
  }

  lemma {:induction false} ModSum(a: nat, b: nat)
    ensures ((a % M) + b) % M == (a + b) % M
  {
    var q := a / M;
    assert a == M * q + a % M;
    ModShift(a % M + b, q);
  }

  lemma {:induction false} ModShift(a: nat, q: nat)
    ensures (a + M * q) % M == a % M
  {
    if q != 0 {
      ModShift(a, q - 1);
      assert a + M * q == (a + M * (q - 1)) + M;
    }
  }

  lemma {:induction false} SumSteps(k: Word, st: State, p: Packet)
    ensures Step(LdImm(k), st, p) == Some(st[A_ATOM := k])
    ensures Step(Alu(Add, X), st[A_ATOM := k], p) == Some(st[A_ATOM := Plus(k, st[X_ATOM])])
  {
    hide Plus;
    var m := st[A_ATOM := k];
    assert m[A_ATOM := Plus(k, st[X_ATOM])] == st[A_ATOM := Plus(k, st[X_ATOM])];
  }

  /** Loading at the sum in X, or at X plus the constant. */
  lemma {:induction false} IndexSteps(k: Word, size: Size, off: Word, st: State, p: Packet)
    ensures var m := st[A_ATOM := Plus(k, st[X_ATOM])];
      && Step(Tax, m, p) == Some(m[X_ATOM := m[A_ATOM]])
      && BothEnd(Others(X_ATOM), Step(LdInd(size, off), m[X_ATOM := m[A_ATOM]], p), Step(LdInd(size, Plus(off, k)), st, p))
  {
    hide Load, Plus;
    SumSwap(k, st[X_ATOM], off);
  }

  /** ld #k; add x; tax; ld [x + off] --> ld [x + off + k], leaving another X. */
  lemma {:induction false} IndexFold(k: Word, size: Size, off: Word)
    ensures Trimmed([LdImm(k), Alu(Add, X), Tax, LdInd(size, off)], [LdInd(size, Plus(off, k))], Others(X_ATOM))
  {
    hide Step, AgreeOn, Plus;
    var a, a2 := [LdImm(k), Alu(Add, X), Tax, LdInd(size, off)], [LdInd(size, Plus(off, k))];
    forall st: State, p ensures TrimmedAt(a, a2, Others(X_ATOM), st, p) {
      var sum := Plus(k, st[X_ATOM]);
      var m := st[A_ATOM := sum];
      assert a == [LdImm(k), Alu(Add, X)] + [Tax, LdInd(size, off)];
      ExecConcat([LdImm(k), Alu(Add, X)], [Tax, LdInd(size, off)], st, p);
      ExecTwo(LdImm(k), Alu(Add, X), st, p);
      SumSteps(k, st, p);
      ExecTwo(Tax, LdInd(size, off), m, p);
      ExecOne(LdInd(size, Plus(off, k)), st, p);
      IndexSteps(k, size, off, st, p);
    }
  }

  lemma {:induction false} SwapLoads(k: Word, msh: Word, st: State, p: Packet)
    ensures Exec([LdImm(k), LdxMsh(msh)], st, p) == Exec([LdxMsh(msh), LdImm(k)], st, p)
  {
    hide Msh;
    ExecTwo(LdImm(k), LdxMsh(msh), st, p);
    ExecTwo(LdxMsh(msh), LdImm(k), st, p);
    if Msh(p, msh).Some? {
      assert st[A_ATOM := k][X_ATOM := Msh(p, msh).value] == st[X_ATOM := Msh(p, msh).value][A_ATOM := k];
    }
  }

  lemma {:induction false} TrimmedLess(a: seq<Stmt>, a2: seq<Stmt>, S: set<Atom>, T: set<Atom>)
    requires Trimmed(a, a2, S) && T <= S
    ensures Trimmed(a, a2, T)
  {
    hide Exec;
    forall st: State, p ensures TrimmedAt(a, a2, T, st, p) {
      assert TrimmedAt(a, a2, S, st, p);
    }
  }

  lemma {:induction false} ZeroSum(a: Word)
    ensures Plus(a, 0) == a && Plus(0, a) == a
  {
  }

  /** With the constant 0 not even X changes. */
  lemma {:induction false} ZeroFold(size: Size, off: Word)
    ensures Trimmed([LdImm(0), Alu(Add, X), Tax, LdInd(size, off)], [LdInd(size, Plus(off, 0))], From(0))
  {
    hide Step, Plus;
    var a, a2 := [LdImm(0), Alu(Add, X), Tax, LdInd(size, off)], [LdInd(size, Plus(off, 0))];
    IndexFold(0, size, off);
    forall st: State, p ensures TrimmedAt(a, a2, From(0), st, p) {
      assert TrimmedAt(a, a2, Others(X_ATOM), st, p);
      if Exec(a, st, p).Some? {
        FoldedX(0, size, off, st, p);
        ZeroSum(st[X_ATOM]);
        AgreeAll(Exec(a, st, p).value, Exec(a2, st, p).value);
      }
    }
  }

  lemma {:induction false} AgreeAll(x: State, y: State)
    requires AgreeOn(Others(X_ATOM), x, y) && x[X_ATOM] == y[X_ATOM]
    ensures AgreeOn(From(0), x, y)
  {
    forall a: Atom | a in From(0) ensures x[a] == y[a] {
      if a != X_ATOM { assert a in Others(X_ATOM); }
    }
  }

  /** What the statements before and after the rule leave in X. */
  lemma {:induction false} FoldedX(k: Word, size: Size, off: Word, st: State, p: Packet)
    ensures var e := Exec([LdImm(k), Alu(Add, X), Tax, LdInd(size, off)], st, p);
      && (e.Some? ==> e.value[X_ATOM] == Plus(k, st[X_ATOM]))
      && (e.Some? <==> Load(p, Plus(Plus(k, st[X_ATOM]), off), size).Some?)
    ensures var e := Exec([LdInd(size, Plus(off, k))], st, p); e.Some? ==> e.value[X_ATOM] == st[X_ATOM]
  {
    hide Plus, Load, Exec;
    var m := st[A_ATOM := Plus(k, st[X_ATOM])];
    assert [LdImm(k), Alu(Add, X), Tax, LdInd(size, off)] == [LdImm(k), Alu(Add, X)] + [Tax, LdInd(size, off)];
    ExecConcat([LdImm(k), Alu(Add, X)], [Tax, LdInd(size, off)], st, p);
    ExecTwo(LdImm(k), Alu(Add, X), st, p);
    SumSteps(k, st, p);
    ExecTwo(Tax, LdInd(size, off), m, p);
    ExecOne(LdInd(size, Plus(off, k)), st, p);
  }

  // A packet in which no load faults, and a state: all zeros.
  function Zeros(): Packet { Packet(seq(2 * M, _ => 0), 0) }

  function ZeroState(): State { seq(N_ATOMS, _ => 0) }

  lemma {:induction false} ZerosLoad(off: Word, size: Size)
    ensures Load(Zeros(), off, size).Some? && Load(Zeros(), off, B) == Some(0)
  {
    hide Pack4, Pack2;
  }

  /** The rule for an indexed load is right for all that read the atoms of S afterwards, exactly if X is not one of them or the
      constant is 0. */
  lemma {:induction false} IndexFoldExact(k: Word, size: Size, off: Word, S: set<Atom>)
    ensures Trimmed([LdImm(k), Alu(Add, X), Tax, LdInd(size, off)], [LdInd(size, Plus(off, k))], S) <==> X_ATOM !in S || k == 0
  {
    hide Exec, Plus, Load;
    var a, a2 := [LdImm(k), Alu(Add, X), Tax, LdInd(size, off)], [LdInd(size, Plus(off, k))];
    if X_ATOM !in S {
      IndexFold(k, size, off);
      AllBut(S, X_ATOM);
      TrimmedLess(a, a2, Others(X_ATOM), S);
    } else if k == 0 {
      ZeroFold(size, off);
      AllAtoms(S);
      TrimmedLess(a, a2, From(0), S);
    } else {
      var st, p := ZeroState(), Zeros();
      FoldedX(k, size, off, st, p);
      ZerosLoad(Plus(Plus(k, st[X_ATOM]), off), size);
      ZeroSum(k);
      assert !TrimmedAt(a, a2, S, st, p);
    }
  }

  lemma {:induction false} MshZero(msh: Word)
    ensures Msh(Zeros(), msh) == Some(0)
  {
    hide Load, Band, Shl;
    ZerosLoad(msh, B);
    NibbleTimesFour(0);
  }

  /** Behind a header-length load, this is as before with X loaded. */
  lemma {:induction false} HeaderSplit(k: Word, msh: Word, size: Size, off: Word, st: State, p: Packet)
    ensures var a, a2 := [LdImm(k), LdxMsh(msh), Alu(Add, X), Tax, LdInd(size, off)], [LdxMsh(msh), LdInd(size, Plus(off, k))];
      var fold, ind := [LdImm(k), Alu(Add, X), Tax, LdInd(size, off)], [LdInd(size, Plus(off, k))];
      match Msh(p, msh)
      case None => Exec(a, st, p) == None
      case Some(v) => Exec(a, st, p) == Exec(fold, st[X_ATOM := v], p) && Exec(a2, st, p) == Exec(ind, st[X_ATOM := v], p)
  {
    hide Step, Plus;
    var a, a2 := [LdImm(k), LdxMsh(msh), Alu(Add, X), Tax, LdInd(size, off)], [LdxMsh(msh), LdInd(size, Plus(off, k))];
    var tail, fold, ind := [Alu(Add, X), Tax, LdInd(size, off)], [LdImm(k), Alu(Add, X), Tax, LdInd(size, off)], [LdInd(size, Plus(off, k))];
    assert a == [LdImm(k), LdxMsh(msh)] + tail && [LdxMsh(msh)] + fold == [LdxMsh(msh), LdImm(k)] + tail && a2 == [LdxMsh(msh)] + ind;
    ExecConcat([LdImm(k), LdxMsh(msh)], tail, st, p);
    ExecConcat([LdxMsh(msh), LdImm(k)], tail, st, p);
    SwapLoads(k, msh, st, p);
    ExecConcat([LdxMsh(msh)], fold, st, p);
    ExecConcat([LdxMsh(msh)], ind, st, p);
    MshOne(msh, st, p);
  }

  lemma {:induction false} MshOne(msh: Word, st: State, p: Packet)
    ensures Exec([LdxMsh(msh)], st, p) == (match Msh(p, msh) case None => None case Some(v) => Some(st[X_ATOM := v]))
  {
    hide Msh;
    ExecOne(LdxMsh(msh), st, p);
  }

  /** The same condition decides the rule behind a header-length load. */
  lemma {:induction false} HeaderFoldExact(k: Word, msh: Word, size: Size, off: Word, S: set<Atom>)
    ensures Trimmed([LdImm(k), LdxMsh(msh), Alu(Add, X), Tax, LdInd(size, off)], [LdxMsh(msh), LdInd(size, Plus(off, k))], S)
       <==> X_ATOM !in S || k == 0
  {
    hide Exec, Plus, Load, Msh;
    var a, a2 := [LdImm(k), LdxMsh(msh), Alu(Add, X), Tax, LdInd(size, off)], [LdxMsh(msh), LdInd(size, Plus(off, k))];
    var fold, ind := [LdImm(k), Alu(Add, X), Tax, LdInd(size, off)], [LdInd(size, Plus(off, k))];
    if X_ATOM !in S || k == 0 {
      IndexFoldExact(k, size, off, S);
      forall st: State, p ensures TrimmedAt(a, a2, S, st, p) {
        HeaderSplit(k, msh, size, off, st, p);
        if Msh(p, msh).Some? { assert TrimmedAt(fold, ind, S, st[X_ATOM := Msh(p, msh).value], p); }
      }
    } else {
      var st, p := ZeroState(), Zeros();
      MshZero(msh);
      HeaderSplit(k, msh, size, off, st, p);
      var m := st[X_ATOM := 0];
      FoldedX(k, size, off, m, p);
      ZerosLoad(Plus(Plus(k, m[X_ATOM]), off), size);
      ZeroSum(k);
      assert !TrimmedAt(a, a2, S, st, p);
    }
  }

  predicate NopsIn(ss: seq<Stmt>, i: nat, j: nat)
    requires j <= |ss|
  {
    forall k {:trigger ss[k]} :: i <= k < j ==> ss[k].Nop?
  }

  lemma {:induction false} LiveAhead(ss: seq<Stmt>, i: nat, j: nat)
    requires i <= j <= |ss| && NopsIn(ss, i, j)
    ensures Live(ss[i..]) == Live(ss[j..])
    decreases j - i
  {
    if i < j {
      assert ss[i..][1..] == ss[i+1..];
      LiveAhead(ss, i + 1, j);
    }
  }

  /** A statement, NOPs, and what comes after them. */
  lemma {:induction false} LiveStep(ss: seq<Stmt>, i: nat, j: nat)
    requires i < j <= |ss| && !ss[i].Nop? && NopsIn(ss, i + 1, j)
    ensures Live(ss[i..]) == [ss[i]] + Live(ss[j..])
  {
    assert ss[i..][1..] == ss[i+1..];
    LiveAhead(ss, i + 1, j);
  }

  // The last statement that is not a NOP is the operation s.
  predicate EndsIn(ss: seq<Stmt>, s: Stmt) { s.Alu? && var l := Live(ss); |l| > 0 && l[|l|-1] == s }

  lemma {:induction false} WindowEnds(ss: seq<Stmt>, ss2: seq<Stmt>, i: nat, a: seq<Stmt>, a2: seq<Stmt>, rest: seq<Stmt>)
    requires i <= |ss| && i <= |ss2| && Window(ss, i, a, rest) && Window(ss2, i, a2, rest)
    requires |a| > 0 && |a2| > 0 && !a[|a|-1].Alu? && !a2[|a2|-1].Alu?
    ensures forall s :: EndsIn(ss2, s) <==> EndsIn(ss, s)
  {
    assert ss == ss[..i] + ss[i..] && ss2 == ss2[..i] + ss2[i..];
    LiveConcat(ss[..i], ss[i..]);
    LiveConcat(ss2[..i], ss2[i..]);
    if |rest| == 0 {
      assert Live(ss2)[|Live(ss2)|-1] == a2[|a2|-1];
      assert Live(ss)[|Live(ss)|-1] == a[|a|-1];
    } else {
      assert Live(ss2)[|Live(ss2)|-1] == rest[|rest|-1];
      assert Live(ss)[|Live(ss)|-1] == rest[|rest|-1];
    }
  }

  /** As many statements, and the same operation, if any, at the end. */
  ghost predicate SameEnds(ss: seq<Stmt>, ss2: seq<Stmt>) { |ss2| == |ss| && forall s :: EndsIn(ss2, s) <==> EndsIn(ss, s) }

  /** What a rewrite of the statements keeps. */
  ghost predicate Kept(ss: seq<Stmt>, ss2: seq<Stmt>, br: Branch, out: set<Atom>) {
    SameEnds(ss, ss2) && Trimmed(ss, ss2, out + CountedUses(br))
  }

  lemma {:induction false} KeptThen(x: seq<Stmt>, y: seq<Stmt>, z: seq<Stmt>, br: Branch, out: set<Atom>)
    requires Kept(x, y, br, out) && Kept(y, z, br, out)
    ensures Kept(x, z, br, out)
  {
    hide Trimmed;
    TrimmedThen(x, y, z, out + CountedUses(br), out + CountedUses(br), out + CountedUses(br));
  }

  lemma {:induction false} KeptWindow(ss: seq<Stmt>, ss2: seq<Stmt>, i: nat, a: seq<Stmt>, a2: seq<Stmt>, rest: seq<Stmt>,
                                      br: Branch, out: set<Atom>, S: set<Atom>)
    requires i <= |ss| == |ss2| && Window(ss, i, a, rest) && Window(ss2, i, a2, rest) && ss[..i] == ss2[..i]
    requires Trimmed(a, a2, S) && LiveIn(rest, br, out) <= S
    requires |a| > 0 && |a2| > 0 && !a[|a|-1].Alu? && !a2[|a2|-1].Alu?
    ensures Kept(ss, ss2, br, out)
  {
    hide Trimmed, LiveIn, Window, EndsIn;
    WindowReplaced(ss, ss2, i, a, a2, rest, br, out, S);
    WindowEnds(ss, ss2, i, a, a2, rest);
  }

  lemma {:induction false} PairWindow(ss: seq<Stmt>, i: nat, j: nat)
    requires i < j < |ss| && !ss[i].Nop? && !ss[j].Nop? && NopsIn(ss, i + 1, j)
    ensures Window(ss, i, [ss[i], ss[j]], Live(ss[j+1..]))
  {
    hide Live;
    LiveStep(ss, i, j);
    LiveStep(ss, j, j + 1);
    assert [ss[i]] + ([ss[j]] + Live(ss[j+1..])) == [ss[i], ss[j]] + Live(ss[j+1..]);
  }

  /** Two statements in a row replaced by two that leave the same state. */
  lemma {:induction false} PairReplaced(ss: seq<Stmt>, i: nat, j: nat, s2: Stmt, t2: Stmt, br: Branch, out: set<Atom>)
    requires i < j < |ss| && !ss[i].Nop? && !ss[j].Nop? && NopsIn(ss, i + 1, j) && !ss[j].Alu? && !s2.Nop? && !t2.Nop? && !t2.Alu?
    requires Trimmed([ss[i], ss[j]], [s2, t2], From(0))
    ensures Kept(ss, ss[i := s2][j := t2], br, out)
  {
    hide Trimmed, LiveIn, Live, Window, EndsIn, Kept;
    var ss2 := ss[i := s2][j := t2];
    PairWindow(ss, i, j);
    PairWindow(ss2, i, j);
    assert ss2[j+1..] == ss[j+1..] && ss2[..i] == ss[..i];
    AllAtoms(LiveIn(Live(ss[j+1..]), br, out));
    KeptWindow(ss, ss2, i, [ss[i], ss[j]], [s2, t2], Live(ss[j+1..]), br, out, From(0));
  }

  lemma {:induction false} AllAtoms(S: set<Atom>)
    ensures S <= From(0)
  {
  }

  // The statements of the indexed load, by position; msh is add when there is no header-length load.
  predicate IndexPattern(ss: seq<Stmt>, i: nat, msh: nat, add: nat, tax: nat, ild: nat) {
    && i < msh <= add < tax < ild < |ss|
    && ss[i].LdImm? && NopsIn(ss, i + 1, msh) && (msh < add ==> ss[msh].LdxMsh? && NopsIn(ss, msh + 1, add))
    && ss[add] == Alu(Add, X) && NopsIn(ss, add + 1, tax) && ss[tax] == Tax && NopsIn(ss, tax + 1, ild) && ss[ild].LdInd?
  }

  function IndexFolded(ss: seq<Stmt>, i: nat, add: nat, tax: nat, ild: nat): seq<Stmt>
    requires i < |ss| && add < |ss| && tax < |ss| && ild < |ss| && ss[i].LdImm? && ss[ild].LdInd?
  {
    ss[ild := LdInd(ss[ild].size, Plus(ss[ild].off, ss[i].k))][i := Nop][add := Nop][tax := Nop]
  }

  // The pattern with NOPs left out, before and after.
  function PatternOf(ss: seq<Stmt>, i: nat, msh: nat, add: nat, tax: nat, ild: nat): seq<Stmt>
    requires i < |ss| && msh < |ss| && add < |ss| && tax < |ss| && ild < |ss|
  {
    [ss[i]] + (if msh < add then [ss[msh]] else []) + [ss[add], ss[tax], ss[ild]]
  }

  function FoldedOf(ss: seq<Stmt>, i: nat, msh: nat, add: nat, ild: nat): seq<Stmt>
    requires i < |ss| && msh < |ss| && ild < |ss| && ss[i].LdImm? && ss[ild].LdInd?
  {
    (if msh < add then [ss[msh]] else []) + [LdInd(ss[ild].size, Plus(ss[ild].off, ss[i].k))]
  }

  lemma {:induction false} PatternWindow(ss: seq<Stmt>, i: nat, msh: nat, add: nat, tax: nat, ild: nat)
    requires IndexPattern(ss, i, msh, add, tax, ild)
    ensures Window(ss, i, PatternOf(ss, i, msh, add, tax, ild), Live(ss[ild+1..]))
  {
    hide Live;
    LiveStep(ss, i, msh);
    if msh < add { LiveStep(ss, msh, add); }
    LiveStep(ss, add, tax);
    LiveStep(ss, tax, ild);
    LiveStep(ss, ild, ild + 1);
  }

  lemma {:induction false} FoldedWindow(ss: seq<Stmt>, i: nat, msh: nat, add: nat, tax: nat, ild: nat)
    requires IndexPattern(ss, i, msh, add, tax, ild)
    ensures Window(IndexFolded(ss, i, add, tax, ild), i, FoldedOf(ss, i, msh, add, ild), Live(ss[ild+1..]))
    ensures IndexFolded(ss, i, add, tax, ild)[..i] == ss[..i]
  {
    hide Live;
    var ss2 := IndexFolded(ss, i, add, tax, ild);
    assert ss2[ild+1..] == ss[ild+1..];
    LiveStep(ss2, ild, ild + 1);
    if msh < add {
      LiveAhead(ss2, i, msh);
      LiveStep(ss2, msh, ild);
    } else {
      LiveAhead(ss2, i, ild);
    }
  }

  // What the rule spares: all atoms if its constant is 0, otherwise all but X.
  function Spared(k: Word): set<Atom> { if k == 0 then From(0) else Others(X_ATOM) }

  lemma {:induction false} PatternFolds(ss: seq<Stmt>, i: nat, msh: nat, add: nat, tax: nat, ild: nat)
    requires IndexPattern(ss, i, msh, add, tax, ild)
    ensures Trimmed(PatternOf(ss, i, msh, add, tax, ild), FoldedOf(ss, i, msh, add, ild), Spared(ss[i].k))
  {
    hide Trimmed;
    if msh < add {
      HeaderFoldExact(ss[i].k, ss[msh].off, ss[ild].size, ss[ild].off, Spared(ss[i].k));
      assert PatternOf(ss, i, msh, add, tax, ild) == [ss[i], ss[msh], ss[add], ss[tax], ss[ild]];
      assert FoldedOf(ss, i, msh, add, ild) == [ss[msh], LdInd(ss[ild].size, Plus(ss[ild].off, ss[i].k))];
    } else {
      IndexFoldExact(ss[i].k, ss[ild].size, ss[ild].off, Spared(ss[i].k));
      assert PatternOf(ss, i, msh, add, tax, ild) == [ss[i], ss[add], ss[tax], ss[ild]];
      assert FoldedOf(ss, i, msh, add, ild) == [LdInd(ss[ild].size, Plus(ss[ild].off, ss[i].k))];
    }
  }

  lemma {:induction false} IndexReplaced(ss: seq<Stmt>, i: nat, msh: nat, add: nat, tax: nat, ild: nat, br: Branch, out: set<Atom>)
    requires IndexPattern(ss, i, msh, add, tax, ild) && (ss[i].k == 0 || X_ATOM !in LiveIn(ss[ild+1..], br, out))
    ensures Kept(ss, IndexFolded(ss, i, add, tax, ild), br, out)
  {
    hide Trimmed, LiveIn, Live, Window;
    var rest := Live(ss[ild+1..]);
    PatternWindow(ss, i, msh, add, tax, ild);
    FoldedWindow(ss, i, msh, add, tax, ild);
    PatternFolds(ss, i, msh, add, tax, ild);
    LiveLiveIn(ss[ild+1..], br, out);
    if ss[i].k == 0 { AllAtoms(LiveIn(rest, br, out)); } else { AllBut(LiveIn(rest, br, out), X_ATOM); }
    KeptWindow(ss, IndexFolded(ss, i, add, tax, ild), i, PatternOf(ss, i, msh, add, tax, ild), FoldedOf(ss, i, msh, add, ild), rest, br, out, Spared(ss[i].k));
  }

  lemma {:induction false} IndexEnds(ss: seq<Stmt>, i: nat, msh: nat, add: nat, tax: nat, ild: nat)
    requires IndexPattern(ss, i, msh, add, tax, ild)
    ensures SameEnds(ss, IndexFolded(ss, i, add, tax, ild))
  {
    hide Live, Window, EndsIn;
    PatternWindow(ss, i, msh, add, tax, ild);
    FoldedWindow(ss, i, msh, add, tax, ild);
    WindowEnds(ss, IndexFolded(ss, i, add, tax, ild), i, PatternOf(ss, i, msh, add, tax, ild), FoldedOf(ss, i, msh, add, ild), Live(ss[ild+1..]));
  }

  lemma {:induction false} AllBut(S: set<Atom>, a: Atom)
    requires a !in S
    ensures S <= Others(a)
  {
  }

  /** Statement j is the load of an indexed-load pattern whose constant is not 0. */
  ghost predicate Folds(ss: seq<Stmt>, j: nat) {
    exists i: nat, msh: nat, add: nat, tax: nat :: IndexPattern(ss, i, msh, add, tax, j) && ss[i].k != 0
  }

  /** After a load the rule applies to, X is set before it is read again. */
  ghost predicate XSetAfter(ss: seq<Stmt>, br: Branch, live: set<Atom>, j: nat)
    requires j < |ss|
  {
    Folds(ss, j) ==> X_ATOM !in LiveIn(ss[j+1..], br, live)
  }

  ghost predicate XRedefined(ss: seq<Stmt>, br: Branch, live: set<Atom>) {
    forall j {:trigger XSetAfter(ss, br, live, j)} :: 0 <= j < |ss| ==> XSetAfter(ss, br, live, j)
  }

  // From w on nothing has been rewritten, and before it, from s on, no immediate load is left.
  predicate Frontier(orig: seq<Stmt>, ss: seq<Stmt>, s: nat) {
    |orig| == |ss| && forall k, l {:trigger ss[k], ss[l]} :: s <= k <= l < |ss| && ss[k].LdImm? ==> ss[l] == orig[l]
  }

  // The first statement from i on that is not a NOP is an indexed load.
  ghost predicate LoadNext(ss: seq<Stmt>, i: nat) { exists j :: i <= j < |ss| && NopsIn(ss, i, j) && ss[j].LdInd? }

  // There are two statements to look at, or the first is not a NOP: the scan gets to the last one.
  predicate Scans(ss: seq<Stmt>) { |ss| > 0 && (!ss[0].Nop? || |Live(ss)| > 1) }

  /** A reload of a word just stored is a move; a constant moved to X is loaded there. */
  function PairRewritten(ss: seq<Stmt>, s: nat, next: nat): seq<Stmt>
    requires s < |ss| && next < |ss|
  {
    if ss[s].St? && ss[next] == LdxMem(ss[s].r) then ss[next := Tax]
    else if ss[s].LdImm? && ss[next].Tax? then ss[s := LdxImm(ss[s].k)][next := Txa]
    else ss
  }

  /** The same on statements without NOPs, at the front. */
  function PairStep(l: seq<Stmt>): (r: seq<Stmt>)
    requires |l| > 1
    ensures |r| == |l|
  {
    if l[0].St? && l[1] == LdxMem(l[0].r) then [l[0], Tax] + l[2..]
    else if l[0].LdImm? && l[1].Tax? then [LdxImm(l[0].k), Txa] + l[2..]
    else l
  }

  // Where the addition of an indexed load would be.
  function AddPos(l: seq<Stmt>): nat { if |l| > 1 && l[1].LdxMsh? then 2 else 1 }

  /** An indexed load whose index is a constant plus X, at the front. */
  predicate Indexed(l: seq<Stmt>) {
    var m := AddPos(l);
    |l| > m + 2 && l[0].LdImm? && l[m] == Alu(Add, X) && l[m+1].Tax? && l[m+2].LdInd?
  }

  function IndexStep(l: seq<Stmt>): (r: seq<Stmt>)
    requires Indexed(l)
    ensures |r| == |l| - 3
  {
    var m := AddPos(l);
    l[1..m] + [LdInd(l[m+2].size, Plus(l[m+2].off, l[0].k))] + l[m+3..]
  }

  /** What the scan makes of statements without NOPs: pair by pair, and with fold the rule for indexed loads. */
  function PairScan(l: seq<Stmt>, fold: bool): seq<Stmt>
    decreases |l|
  {
    if |l| < 2 then l
    else
      var t := PairStep(l);
      if fold && Indexed(t) then PairScan(IndexStep(t), fold) else [t[0]] + PairScan(t[1..], fold)
  }

  // No reload of a word just stored, and no constant moved to X.
  predicate PairsDone(l: seq<Stmt>) {
    forall i {:trigger l[i]} :: 0 <= i < |l| - 1 ==> !(l[i].St? && l[i+1] == LdxMem(l[i].r)) && !(l[i].LdImm? && l[i+1].Tax?)
  }

  // What the scan may put in front: the statement itself, or, for a constant, a load of X or a load.
  lemma {:induction false} PairScanFront(l: seq<Stmt>, fold: bool)
    requires |l| > 0
    ensures var r := PairScan(l, fold); |r| > 0 && (r[0] == l[0] || (l[0].LdImm? && (r[0].LdxImm? || r[0].LdxMsh? || r[0].LdInd?)))
    decreases |l|
  {
    if |l| > 1 {
      var t := PairStep(l);
      if fold && Indexed(t) { PairScanFront(IndexStep(t), fold); }
    }
  }

  /** After the scan neither is left. */
  lemma {:induction false} PairScanDone(l: seq<Stmt>, fold: bool)
    ensures PairsDone(PairScan(l, fold))
    decreases |l|
  {
    if |l| > 1 {
      var t := PairStep(l);
      if fold && Indexed(t) {
        PairScanDone(IndexStep(t), fold);
      } else {
        PairScanDone(t[1..], fold);
        PairScanFront(t[1..], fold);
        PairsDonePush(t[0], PairScan(t[1..], fold));
      }
    }
  }

  lemma {:induction false} PairsDonePush(x: Stmt, l: seq<Stmt>)
    requires PairsDone(l) && |l| > 0 && !(x.St? && l[0] == LdxMem(x.r)) && !(x.LdImm? && l[0].Tax?)
    ensures PairsDone([x] + l)
  {
    var r := [x] + l;
    forall i | 0 <= i < |r| - 1 ensures !(r[i].St? && r[i+1] == LdxMem(r[i].r)) && !(r[i].LdImm? && r[i+1].Tax?) {
      if i > 0 { assert r[i] == l[i-1] && r[i+1] == l[i]; }
    }
  }

  lemma {:induction false} PairLive(ss: seq<Stmt>, s: nat, next: nat)
    requires s < next < |ss| && !ss[s].Nop? && !ss[next].Nop? && NopsIn(ss, s + 1, next)
    ensures |Live(ss[s..])| > 1 && Live(PairRewritten(ss, s, next)[s..]) == PairStep(Live(ss[s..]))
    ensures PairRewritten(ss, s, next)[..s] == ss[..s]
  {
    hide Live;
    var ss2 := PairRewritten(ss, s, next);
    PairWindow(ss, s, next);
    PairWindow(ss2, s, next);
    assert ss2[next+1..] == ss[next+1..];
  }

  lemma {:induction false} IndexLive(ss: seq<Stmt>, s: nat, msh: nat, add: nat, tax: nat, ild: nat)
    requires IndexPattern(ss, s, msh, add, tax, ild)
    ensures var ss2 := IndexFolded(ss, s, add, tax, ild);
      && NopsIn(ss2, s, msh) && Indexed(Live(ss[s..])) && Live(ss2[msh..]) == IndexStep(Live(ss[s..])) && ss2[..s] == ss[..s]
  {
    hide Live, Plus;
    var ss2, rest := IndexFolded(ss, s, add, tax, ild), Live(ss[ild+1..]);
    PatternWindow(ss, s, msh, add, tax, ild);
    FoldedWindow(ss, s, msh, add, tax, ild);
    LiveAhead(ss2, s, msh);
    if msh < add {
      assert Live(ss[s..]) == [ss[s], ss[msh], ss[add], ss[tax], ss[ild]] + rest;
    } else {
      assert Live(ss[s..]) == [ss[s], ss[add], ss[tax], ss[ild]] + rest;
    }
  }

  lemma {:induction false} NextLive(ss: seq<Stmt>, i: nat) returns (j: nat)
    requires i <= |ss| && |Live(ss[i..])| > 0
    ensures i <= j < |ss| && NopsIn(ss, i, j) && !ss[j].Nop? && Live(ss[i..]) == [ss[j]] + Live(ss[j+1..])
    decreases |ss| - i
  {
    assert ss[i..][1..] == ss[i+1..];
    if ss[i].Nop? { j := NextLive(ss, i + 1); } else { j := i; }
  }

  /** Where the statements from s on are an indexed load, the positions are there. */
  lemma {:induction false} IndexedPattern(ss: seq<Stmt>, s: nat, next: nat)
    requires s < next < |ss| && !ss[s].Nop? && !ss[next].Nop? && NopsIn(ss, s + 1, next)
    ensures Indexed(Live(ss[s..])) ==> exists add: nat, tax: nat, ild: nat :: IndexPattern(ss, s, next, add, tax, ild)
  {
    hide Live;
    var l := Live(ss[s..]);
    if Indexed(l) {
      LiveStep(ss, s, next);
      LiveStep(ss, next, next + 1);
      var add := next;
      if ss[next].LdxMsh? { add := NextLive(ss, next + 1); }
      var tax := NextLive(ss, add + 1);
      var ild := NextLive(ss, tax + 1);
      assert IndexPattern(ss, s, next, add, tax, ild);
    }
  }

  // What is before s, and the scan of what is left, are the scan of all.
  predicate ScanTo(orig: seq<Stmt>, ss: seq<Stmt>, s: nat, fold: bool) {
    s <= |ss| && Live(ss[..s]) + PairScan(Live(ss[s..]), fold) == PairScan(Live(orig), fold)
  }

  lemma {:induction false} LiveBefore(ss: seq<Stmt>, s: nat, next: nat)
    requires s <= next <= |ss| && NopsIn(ss, s, next)
    ensures Live(ss[..next]) == Live(ss[..s])
  {
    assert ss[..next] == ss[..s] + ss[s..next];
    LiveConcat(ss[..s], ss[s..next]);
    assert NopsIn(ss[s..next], 0, next - s);
    LiveAhead(ss[s..next], 0, next - s);
    assert ss[s..next][0..] == ss[s..next];
  }

  lemma {:induction false} LiveBeforeOne(ss: seq<Stmt>, s: nat, next: nat)
    requires s < next <= |ss| && !ss[s].Nop? && NopsIn(ss, s + 1, next)
    ensures Live(ss[..next]) == Live(ss[..s]) + [ss[s]]
  {
    LiveBefore(ss, s + 1, next);
    assert ss[..s+1] == ss[..s] + [ss[s]];
    LiveConcat(ss[..s], [ss[s]]);
    assert [ss[s]][1..] == [];
  }

  lemma {:induction false} ScanSkip(orig: seq<Stmt>, ss: seq<Stmt>, s: nat, next: nat, fold: bool)
    requires ScanTo(orig, ss, s, fold) && s <= next <= |ss| && NopsIn(ss, s, next)
    ensures ScanTo(orig, ss, next, fold)
  {
    hide Live, PairScan;
    LiveBefore(ss, s, next);
    LiveAhead(ss, s, next);
  }

  /** At the last statement the scan is done. */
  lemma {:induction false} ScanEnds(orig: seq<Stmt>, ss: seq<Stmt>, s: nat, fold: bool)
    requires ScanTo(orig, ss, s, fold) && s < |ss| ==> NopsIn(ss, s + 1, |ss|)
    requires ScanTo(orig, ss, s, fold)
    ensures Live(ss) == PairScan(Live(orig), fold)
  {
    assert ss == ss[..s] + ss[s..];
    LiveConcat(ss[..s], ss[s..]);
    if s < |ss| {
      LiveAhead(ss, s + 1, |ss|);
      assert ss[s..][1..] == ss[s+1..] && ss[|ss|..] == [];
    }
  }

  /** One pair: ss1 is ss0 after the rules for neighbours, and ss2 is ss1 after the one for indexed loads. */
  lemma {:induction false} ScanPair(orig: seq<Stmt>, ss0: seq<Stmt>, ss1: seq<Stmt>, ss2: seq<Stmt>, s: nat, next: nat, fold: bool)
    requires ScanTo(orig, ss0, s, fold) && s < next < |ss1| == |ss2| && |Live(ss0[s..])| > 1
    requires ss1[..s] == ss0[..s] && Live(ss1[s..]) == PairStep(Live(ss0[s..])) && !ss1[s].Nop? && NopsIn(ss1, s + 1, next)
    requires var l := Live(ss1[s..]);
      if fold && Indexed(l) then ss2[..s] == ss1[..s] && NopsIn(ss2, s, next) && Live(ss2[next..]) == IndexStep(l) else ss2 == ss1
    ensures ScanTo(orig, ss2, next, fold)
  {
    hide Live, PairStep, Indexed, IndexStep;
    var l := Live(ss1[s..]);
    if fold && Indexed(l) {
      LiveBefore(ss2, s, next);
    } else {
      LiveBeforeOne(ss1, s, next);
      LiveStep(ss1, s, next);
      var pre, x, r := Live(ss0[..s]), ss1[s], PairScan(Live(ss1[next..]), fold);
      assert l[1..] == Live(ss1[next..]);
      assert pre + ([x] + r) == (pre + [x]) + r;
    }
  }

  lemma {:induction false} ScanStart(orig: seq<Stmt>, fold: bool)
    ensures ScanTo(orig, orig, 0, fold)
  {
    assert orig[0..] == orig;
  }

  lemma {:induction false} IndexedConst(ss: seq<Stmt>, s: nat)
    requires s < |ss| && !ss[s].Nop?
    ensures Indexed(Live(ss[s..])) ==> ss[s].LdImm?
  {
    assert ss[s..][0] == ss[s];
  }

  class Peeper {
    var node: Node
    // The atoms live at the end of the block, and the constants X and A are known to hold there.
    const outUse: set<Atom>
    const xConst: Option<Word>
    const aConst: Option<Word>

    constructor (n: Node, out: set<Atom>, x: Option<Word>, a: Option<Word>)
      ensures node == n && outUse == out && xConst == x && aConst == a
    {
      node, outUse, xConst, aConst := n, out, x, a;
    }

    /** The next statement from i on that is not a NOP. */
    method ThisOp(i: nat) returns (j: nat)
      requires i <= |node.stmts|
      ensures i <= j <= |node.stmts| && NopsIn(node.stmts, i, j) && (j < |node.stmts| ==> !node.stmts[j].Nop?)
    {
      j := i;
      while j < |node.stmts| && node.stmts[j].Nop?
        invariant i <= j <= |node.stmts| && NopsIn(node.stmts, i, j)
      {
        j := j + 1;
      }
    }

    /** The two rules for neighbours: reload of a word just stored, and a constant moved to X. */
    method RewritePair(s: nat, next: nat, ghost orig: seq<Stmt>, ghost live: set<Atom>)
      requires s < next < |node.stmts| && !node.stmts[s].Nop? && !node.stmts[next].Nop? && NopsIn(node.stmts, s + 1, next)
      requires Frontier(orig, node.stmts, s)
      modifies `node
      ensures node == old(node).(stmts := node.stmts) && Kept(old(node).stmts, node.stmts, node.s, live) && SameEnds(old(node).stmts, node.stmts)
      ensures Frontier(orig, node.stmts, s) && !node.stmts[next].Nop? && NopsIn(node.stmts, s + 1, next)
      ensures node.stmts[s].LdImm? ==> node.stmts == old(node).stmts
      ensures node.stmts == PairRewritten(old(node).stmts, s, next)
      ensures node.stmts[..s] == old(node).stmts[..s] && |Live(old(node).stmts[s..])| > 1
      ensures Live(node.stmts[s..]) == PairStep(Live(old(node).stmts[s..]))
    {
      hide Kept, SameEnds, Trimmed;
      KeptSelf(node.stmts, node.s, live);
      if node.stmts[s].St? && node.stmts[next] == LdxMem(node.stmts[s].r) {
        StoreLoad(node.stmts[s].r);
        PairReplaced(node.stmts, s, next, node.stmts[s], Tax, node.s, live);
        assert node.stmts[s := node.stmts[s]] == node.stmts;
        node := node.(stmts := node.stmts[next := Tax]);
      }
      if node.stmts[s].LdImm? && node.stmts[next].Tax? {
        LoadMove(node.stmts[s].k);
        PairReplaced(node.stmts, s, next, LdxImm(node.stmts[s].k), Txa, node.s, live);
        node := node.(stmts := node.stmts[s := LdxImm(node.stmts[s].k)][next := Txa]);
      }
      KeptSame(old(node).stmts, node.stmts, node.s, live);
      PairLive(old(node).stmts, s, next);
    }

    /** The rule for an indexed load whose index is a constant plus X. */
    method RewriteIndexed(s: nat, next: nat, ghost orig: seq<Stmt>, ghost live: set<Atom>)
      requires s < next < |node.stmts| && node.stmts[s].LdImm? && !node.stmts[next].Nop? && NopsIn(node.stmts, s + 1, next)
      requires Frontier(orig, node.stmts, s)
      modifies `node
      ensures node == old(node).(stmts := node.stmts) && SameEnds(old(node).stmts, node.stmts)
      ensures X_ATOM in outUse || XRedefined(orig, node.s, live) ==> Kept(old(node).stmts, node.stmts, node.s, live)
      ensures Frontier(orig, node.stmts, s + 1) && Frontier(orig, node.stmts, next)
      ensures X_ATOM !in outUse ==> forall add, tax, ild :: IndexPattern(old(node).stmts, s, next, add, tax, ild) ==>
        node.stmts == IndexFolded(old(node).stmts, s, add, tax, ild)
      ensures node.stmts[next].Nop? ==> LoadNext(node.stmts, next)
      ensures node.stmts[..s] == old(node).stmts[..s]
      ensures var l := Live(old(node).stmts[s..]);
        if X_ATOM !in outUse && Indexed(l) then NopsIn(node.stmts, s, next) && Live(node.stmts[next..]) == IndexStep(l) else node == old(node)
    {
      hide Live, Indexed, IndexStep, Kept, Trimmed, LiveIn, XRedefined, Frontier, LoadNext, Plus;
      KeptSelf(node.stmts, node.s, live);
      FrontierNext(orig, node.stmts, s, next);
      if X_ATOM in outUse { return; }
      IndexedPattern(node.stmts, s, next);
      var add := next;
      if node.stmts[next].LdxMsh? {
        add := ThisOp(next + 1);
      }
      if add == |node.stmts| || node.stmts[add] != Alu(Add, X) { return; }
      var tax := ThisOp(add + 1);
      if tax == |node.stmts| || !node.stmts[tax].Tax? { return; }
      var ild := ThisOp(tax + 1);
      if ild == |node.stmts| || !node.stmts[ild].LdInd? { return; }
      IndexLive(node.stmts, s, next, add, tax, ild);
      IndexEnds(node.stmts, s, next, add, tax, ild);
      if XRedefined(orig, node.s, live) {
        SuffixSet(orig, node.stmts, node.s, live, s, next, add, tax, ild);
        IndexReplaced(node.stmts, s, next, add, tax, ild, node.s, live);
      }
      FrontierFolded(orig, node.stmts, s, next, add, tax, ild);
      var i := node.stmts[ild];
      node := node.(stmts := node.stmts[ild := LdInd(i.size, Plus(i.off, node.stmts[s].k))][s := Nop][add := Nop][tax := Nop]);
    }

    /** Scan the statements pairwise; last is the last real statement, or one that has become a NOP. */
    method PeepStmts(ghost live: set<Atom>) returns (last: nat)
      requires |node.stmts| > 0
      modifies `node
      ensures node == old(node).(stmts := node.stmts) && SameEnds(old(node).stmts, node.stmts)
      ensures X_ATOM in outUse || XRedefined(old(node).stmts, node.s, live) ==> Kept(old(node).stmts, node.stmts, node.s, live)
      ensures last < |node.stmts| && (node.stmts[last].Nop? || NopsIn(node.stmts, last + 1, |node.stmts|))
      ensures !node.stmts[last].Nop? ==> Scans(old(node).stmts)
      ensures node.stmts[last].Nop? && Scans(old(node).stmts) ==> forall s :: !EndsIn(node.stmts, s)
      ensures Live(node.stmts) == PairScan(Live(old(node).stmts), X_ATOM !in outUse)
    {
      hide Kept, Trimmed, XRedefined, EndsIn, Live, PairScan, ScanTo, Indexed, IndexStep, PairStep, LoadNext;
      ghost var orig, fold := node.stmts, X_ATOM !in outUse;
      ScanStart(orig, fold);
      KeptSelf(node.stmts, node.s, live);
      last := 0;
      var s := 0;
      while true
        invariant s < |node.stmts| == |orig| && last == s && node == old(node).(stmts := node.stmts)
        invariant SameEnds(orig, node.stmts) && Frontier(orig, node.stmts, s)
        invariant X_ATOM in outUse || XRedefined(orig, node.s, live) ==> Kept(orig, node.stmts, node.s, live)
        invariant ScanTo(orig, node.stmts, s, fold)
        invariant if s == 0 then node.stmts == orig else |Live(orig)| > 1 && (node.stmts[s].Nop? ==> LoadNext(node.stmts, s))
        decreases |node.stmts| - s
      {
        ghost var from := s;
        s := ThisOp(s);
        ScanSkip(orig, node.stmts, from, s, fold);
        if s == |node.stmts| {
          NoEnd(node.stmts, last);
          ScanEnds(orig, node.stmts, s, fold);
          break;
        }
        var next := ThisOp(s + 1);
        if next == |node.stmts| {
          OneLeft(node.stmts, last, s);
          ScanEnds(orig, node.stmts, s, fold);
          break;
        }
        if last == 0 { TwoLive(orig, s, next); }
        last := next;
        ghost var was := node.stmts;
        RewritePair(s, next, orig, live);
        if X_ATOM in outUse || XRedefined(orig, node.s, live) { KeptThen(orig, was, node.stmts, node.s, live); }
        ghost var mid := node.stmts;
        IndexedConst(mid, s);
        if node.stmts[s].LdImm? {
          RewriteIndexed(s, next, orig, live);
          if X_ATOM in outUse || XRedefined(orig, node.s, live) { KeptThen(orig, mid, node.stmts, node.s, live); }
        }
        ScanPair(orig, was, mid, node.stmts, s, next, fold);
        s := next;
      }
    }

    /** A comparison for equality absorbs the operation before it, if A is not used after the block. */
    method FoldLast(last: nat)
      requires last < |node.stmts|
      modifies `node
      ensures node == LastFolded(old(node), last, outUse, xConst)
    {
      if node.s.Jmp? && node.s.jop == Jeq && node.s.src.K? && A_ATOM !in outUse && node.stmts[last].Alu? {
        var k := node.s.src.k;
        var op, src := node.stmts[last].op, node.stmts[last].src;
        if op == Sub && src.X? {
          if xConst.Some? {
            node := node.(s := Jmp(Jeq, K(Plus(k, xConst.value))), stmts := node.stmts[last := Nop]);
          } else if k == 0 {
            node := node.(s := Jmp(Jeq, X), stmts := node.stmts[last := Nop]);
          }
        } else if op == Sub {
          node := node.(s := Jmp(Jeq, K(Plus(k, src.k))), stmts := node.stmts[last := Nop]);
        } else if op == And && src.K? && k == 0 {
          node := node.(s := Jmp(Jset, K(src.k)), stmts := node.stmts[last := Nop]);
          node := node.(jt := node.jf, jf := node.jt);
        }
      }
    }

    /** A test of no bits never succeeds; a test of all bits is taken to succeed always. */
    method FoldJset()
      modifies `node
      ensures node == JsetFolded(old(node))
    {
      if node.s.Jmp? && node.s.jop == Jset && node.s.src.K? {
        if node.s.src.k == 0 { node := node.(jt := node.jf); }
        if node.s.src.k == ONES { node := node.(jf := node.jt); }
      }
    }

    /** A comparison with an X that is constant. */
    method FoldX()
      modifies `node
      ensures node == XFolded(old(node), xConst)
    {
      if xConst.Some? && node.s.Jmp? && node.s.src.X? {
        node := node.(s := Jmp(node.s.jop, K(xConst.value)));
      }
    }

    /** A comparison of two constants. */
    method FoldA()
      requires node.s.Jmp?
      modifies `node
      ensures node == AFolded(old(node), aConst)
    {
      if aConst.Some? && node.s.src.K? {
        if Test(node.s.jop, aConst.value, node.s.src.k) {
          node := node.(jf := node.jt);
        } else {
          node := node.(jt := node.jf);
        }
      }
    }

    /** Rewrite the statements, then the branch; abort on a return block whose accumulator is known. Where the block does not fault,
        and X and A hold their constants at its end, the live atoms, the block chosen next and the value returned are the same,
        except where the block comes to test all bits and A is 0, and unless an indexed load leaves another X. X need not
        hold its constant where neither the branch nor the operation before it reads X. */
    method OptPeep() returns (ok: bool)
      modifies `node
      ensures ok <==> old(node).s.Jmp? || |old(node).stmts| == 0 || aConst.None?
      ensures ok && (X_ATOM in outUse || XRedefined(old(node).stmts, old(node).s, outUse)) && (aConst.Some? ==> forall s :: !EndsIn(old(node).stmts, s))
        ==> Peeped(old(node), node, outUse, xConst, aConst, AllBits(old(node), outUse))
      ensures |old(node).stmts| == 0 ==> node == old(node)
      ensures (node.s.Jmp? <==> old(node).s.Jmp?) && {node.jt, node.jf} <= {old(node).jt, old(node).jf}
      ensures !node.s.Jmp? ==> node.s == old(node).s
      ensures |node.stmts| == |old(node).stmts|
      ensures |old(node).stmts| > 0 ==> Squeezed(node) == PeepOf(old(node), outUse, xConst, aConst)
    {
      hide Kept, SameEnds, Trimmed, EndsIn, XRedefined, Scans, Live, PairScan, LastRule, LastFolded, XFolded, JsetFolded, AFolded, OnesRule;
      if |node.stmts| == 0 {
        PeepedSelf(node, outUse, xConst, aConst);
        return true;
      }
      ghost var n0, live := node, LiveAtEnd(node, outUse);
      XRedefinedMore(node, outUse);
      var last := PeepStmts(live);
      ghost var n1 := node;
      FoldLast(last);
      FoldJset();
      FoldX();
      KeptEnds(n0.stmts, n1.stmts);
      StagesSqueezed(n0, n1, last, outUse, xConst, aConst);
      StagesBranch(n1, last, outUse, xConst, aConst);
      if !node.s.Jmp? {
        if Kept(n0.stmts, n1.stmts, n0.s, live) { ReturnKeeps(n0, n1, outUse, xConst, aConst); }
        return aConst.None?;
      }
      FoldA();
      OnesExact(n0, n1, last, outUse, xConst);
      StagesJmp(n1, last, outUse, xConst);
      if Kept(n0.stmts, n1.stmts, n0.s, live) && (aConst.Some? ==> forall s :: !EndsIn(n0.stmts, s)) {
        StagesKeep(n0, n1, last, outUse, live, xConst, aConst);
      }
      return true;
    }
  }

  lemma {:induction false} KeptSame(ss: seq<Stmt>, ss2: seq<Stmt>, br: Branch, out: set<Atom>)
    requires Kept(ss, ss2, br, out)
    ensures SameEnds(ss, ss2)
  {
  }

  lemma {:induction false} KeptEnds(ss: seq<Stmt>, ss2: seq<Stmt>)
    requires SameEnds(ss, ss2)
    ensures |ss2| == |ss| && forall s :: EndsIn(ss2, s) <==> EndsIn(ss, s)
  {
  }

  /** A block that returns keeps its statements' effect on what is live and on what it returns. */
  lemma {:induction false} ReturnKeeps(n0: Node, n1: Node, out: set<Atom>, x: Option<Word>, a: Option<Word>)
    requires !n0.s.Jmp? && n1 == n0.(stmts := n1.stmts) && Kept(n0.stmts, n1.stmts, n0.s, LiveAtEnd(n0, out))
    ensures Peeped(n0, n1, out, x, a, AllBits(n0, out))
  {
    hide Exec, EndsIn, Knows, SameEnds;
    forall st: State, p ensures PeepedAt(n0, n1, out, x, a, AllBits(n0, out), st, p) {
      assert TrimmedAt(n0.stmts, n1.stmts, LiveAtEnd(n0, out) + CountedUses(n0.s), st, p);
    }
  }

  function LastFolded(n: Node, l: nat, out: set<Atom>, x: Option<Word>): Node
    requires l < |n.stmts|
  {
    if !(n.s.Jmp? && n.s.jop == Jeq && n.s.src.K? && A_ATOM !in out && n.stmts[l].Alu?) then n
    else
      var k, op, src, ss := n.s.src.k, n.stmts[l].op, n.stmts[l].src, n.stmts[l := Nop];
      if op == Sub && src.X? then
        if x.Some? then Node(ss, Jmp(Jeq, K(Plus(k, x.value))), n.jt, n.jf)
        else if k == 0 then Node(ss, Jmp(Jeq, X), n.jt, n.jf)
        else n
      else if op == Sub then Node(ss, Jmp(Jeq, K(Plus(k, src.k))), n.jt, n.jf)
      else if op == And && src.K? && k == 0 then Node(ss, Jmp(Jset, K(src.k)), n.jf, n.jt)
      else n
  }

  // The node without NOPs.
  function Squeezed(n: Node): Node { n.(stmts := Live(n.stmts)) }

  /** The rule for the last statement, on a node without NOPs. */
  function LastRule(n: Node, out: set<Atom>, x: Option<Word>): Node {
    if |n.stmts| == 0 then n else Squeezed(LastFolded(n, |n.stmts| - 1, out, x))
  }

  // The rules for the branch, in their order.
  function BranchRules(n: Node, x: Option<Word>, a: Option<Word>): Node {
    var n2 := XFolded(JsetFolded(n), x);
    if n2.s.Jmp? then AFolded(n2, a) else n2
  }

  /** What the peephole rules make of a node with statements, NOPs left out: the scan, the rule for the last statement if the scan got
      that far, and the rules for the branch. */
  function PeepOf(n: Node, out: set<Atom>, x: Option<Word>, a: Option<Word>): Node {
    var n1 := n.(stmts := PairScan(Live(n.stmts), X_ATOM !in out));
    BranchRules(if Scans(n.stmts) then LastRule(n1, out, x) else n1, x, a)
  }

  lemma {:induction false} LiveLive(ss: seq<Stmt>)
    requires forall k :: 0 <= k < |ss| ==> !ss[k].Nop?
    ensures Live(ss) == ss
  {
    if |ss| > 0 { LiveLive(ss[1..]); }
  }

  lemma {:induction false} LiveNoNops(ss: seq<Stmt>)
    ensures forall k :: 0 <= k < |Live(ss)| ==> !Live(ss)[k].Nop?
  {
    if |ss| > 0 { LiveNoNops(ss[1..]); }
  }

  /** The last statement, with and without NOPs: the same rule. */
  lemma {:induction false} LastSqueezed(n: Node, l: nat, out: set<Atom>, x: Option<Word>)
    requires l < |n.stmts| && !n.stmts[l].Nop? && NopsIn(n.stmts, l + 1, |n.stmts|)
    ensures Squeezed(LastFolded(n, l, out, x)) == LastRule(Squeezed(n), out, x)
  {
    hide Plus, Live;
    var ss, ls, ss2 := n.stmts, Live(n.stmts), n.stmts[l := Nop];
    assert ss[|ss|..] == [] && ss2[|ss|..] == [];
    LiveBeforeOne(ss, l, |ss|);
    LiveBefore(ss2, l, |ss|);
    assert ss[..|ss|] == ss && ss2[..|ss|] == ss2 && ss2[..l] == ss[..l];
    var k := |ls| - 1;
    LiveNoNops(ss);
    LiveLive(ls);
    LiveNoNops(ss[..l]);
    LiveLive(ls[..k]);
    assert ls[..k] == Live(ss[..l]);
    var ls2 := ls[k := Nop];
    LiveBefore(ls2, k, |ls2|);
    assert ls2[..|ls2|] == ls2 && ls2[..k] == ls[..k];
  }

  lemma {:induction false} LastIsNone(n: Node, out: set<Atom>, x: Option<Word>)
    requires forall s :: !EndsIn(n.stmts, s)
    ensures LastRule(Squeezed(n), out, x) == Squeezed(n)
  {
    hide Plus, Live;
    var ls := Live(n.stmts);
    LiveNoNops(n.stmts);
    LiveLive(ls);
    if |ls| > 0 { assert !EndsIn(n.stmts, ls[|ls|-1]); }
  }

  lemma {:induction false} StagesSqueezed(n0: Node, n1: Node, l: nat, out: set<Atom>, x: Option<Word>, a: Option<Word>)
    requires |n0.stmts| > 0 && n1 == n0.(stmts := n1.stmts) && Live(n1.stmts) == PairScan(Live(n0.stmts), X_ATOM !in out) && l < |n1.stmts|
    requires n1.stmts[l].Nop? || NopsIn(n1.stmts, l + 1, |n1.stmts|)
    requires !n1.stmts[l].Nop? ==> Scans(n0.stmts)
    requires n1.stmts[l].Nop? && Scans(n0.stmts) ==> forall s :: !EndsIn(n1.stmts, s)
    ensures Squeezed(BranchRules(LastFolded(n1, l, out, x), x, a)) == PeepOf(n0, out, x, a)
  {
    hide Scans, Live, PairScan, EndsIn, LastRule, XFolded, JsetFolded, AFolded;
    var n2 := LastFolded(n1, l, out, x);
    if !n1.stmts[l].Nop? {
      LastSqueezed(n1, l, out, x);
    } else if Scans(n0.stmts) {
      LastIsNone(n1, out, x);
    }
    BranchSqueezed(n2, x, a);
  }

  lemma {:induction false} BranchSqueezed(n: Node, x: Option<Word>, a: Option<Word>)
    ensures Squeezed(BranchRules(n, x, a)) == BranchRules(Squeezed(n), x, a)
  {
    hide Live, Test;
  }

  lemma {:induction false} StagesBranch(n1: Node, l: nat, out: set<Atom>, x: Option<Word>, a: Option<Word>)
    requires l < |n1.stmts|
    ensures |BranchRules(LastFolded(n1, l, out, x), x, a).stmts| == |n1.stmts|
    ensures var n2 := LastFolded(n1, l, out, x); XFolded(JsetFolded(n2), x).s.Jmp? <==> n1.s.Jmp?
    ensures !n1.s.Jmp? ==> XFolded(JsetFolded(LastFolded(n1, l, out, x)), x) == n1
  {
  }

  /** What is left when the rules are done: no reload of a word just stored, and no constant moved to X. */
  lemma {:induction false} PeepedPairs(n: Node, out: set<Atom>, x: Option<Word>, a: Option<Word>)
    ensures PairsDone(PeepOf(n, out, x, a).stmts)
  {
    hide PairScan, Scans, PairsDone, XFolded, JsetFolded, AFolded, LastRule;
    var l := PairScan(Live(n.stmts), X_ATOM !in out);
    PairScanDone(Live(n.stmts), X_ATOM !in out);
    LiveNoNops(n.stmts);
    PairScanLive(Live(n.stmts), X_ATOM !in out);
    var n1 := n.(stmts := l);
    LastRulePairs(n1, out, x);
    BranchStmts(if Scans(n.stmts) then LastRule(n1, out, x) else n1, x, a);
  }

  lemma {:induction false} BranchStmts(n: Node, x: Option<Word>, a: Option<Word>)
    ensures BranchRules(n, x, a).stmts == n.stmts
  {
    hide Test;
  }

  lemma {:induction false} PairScanLive(l: seq<Stmt>, fold: bool)
    requires forall k :: 0 <= k < |l| ==> !l[k].Nop?
    ensures forall k :: 0 <= k < |PairScan(l, fold)| ==> !PairScan(l, fold)[k].Nop?
    decreases |l|
  {
    hide Plus;
    if |l| > 1 {
      var t := PairStep(l);
      if fold && Indexed(t) { PairScanLive(IndexStep(t), fold); } else { PairScanLive(t[1..], fold); }
    }
  }

  lemma {:induction false} LastRulePairs(n: Node, out: set<Atom>, x: Option<Word>)
    requires PairsDone(n.stmts) && forall k :: 0 <= k < |n.stmts| ==> !n.stmts[k].Nop?
    ensures PairsDone(LastRule(n, out, x).stmts)
  {
    hide Plus, Live;
    var ss, k := n.stmts, |n.stmts| - 1;
    if |ss| > 0 {
      LiveLive(ss);
      LiveLive(ss[..k]);
      var ss2 := ss[k := Nop];
      LiveBefore(ss2, k, |ss2|);
      assert ss2[..|ss2|] == ss2 && ss2[..k] == ss[..k];
      assert PairsDone(ss[..k]);
    }
  }

  /** The comparison takes over the last statement: a difference whose subtrahend is constant, or is compared with 0, or a mask. */
  predicate Absorbs(n: Node, out: set<Atom>, x: Option<Word>) {
    && |n.stmts| > 0 && n.s.Jmp? && n.s.jop == Jeq && n.s.src.K? && A_ATOM !in out
    && var s := n.stmts[|n.stmts|-1];
      s.Alu? && ((s.op == Sub && (s.src.K? || x.Some? || n.s.src.k == 0)) || (s.op == And && s.src.K? && n.s.src.k == 0))
  }

  /** The last statement goes exactly where the comparison takes it over; nothing else does. */
  lemma {:induction false} LastRuleExact(n: Node, out: set<Atom>, x: Option<Word>)
    requires forall k :: 0 <= k < |n.stmts| ==> !n.stmts[k].Nop?
    ensures if Absorbs(n, out, x) then LastRule(n, out, x).stmts == n.stmts[..|n.stmts|-1] else LastRule(n, out, x) == n
  {
    hide Plus, Live;
    var ss, k := n.stmts, |n.stmts| - 1;
    LiveLive(ss);
    if |ss| > 0 {
      LiveLive(ss[..k]);
      var ss2 := ss[k := Nop];
      LiveBefore(ss2, k, |ss2|);
      assert ss2[..|ss2|] == ss2 && ss2[..k] == ss[..k];
    }
  }

  /** A branch whose outcome is known has one target: both operands known, no bits tested, or all. */
  lemma {:induction false} KnownOneTarget(n: Node, out: set<Atom>, x: Option<Word>, a: Option<Word>)
    ensures var r := PeepOf(n, out, x, a);
      r.s.Jmp? ==> (a.Some? && r.s.src.K? ==> r.jt == r.jf) && (x.Some? ==> r.s.src.K?)
    ensures var r := PeepOf(n, out, x, a);
      r.s.Jmp? && r.jt != r.jf && r.s.src.K? && r.s.jop == Jset && x.None? ==> r.s.src.k != 0 && r.s.src.k != ONES
  {
    hide Live, PairScan, Scans, LastRule, Test;
  }

  predicate OnesRule(n: Node) { n.s == Jmp(Jset, K(ONES)) }

  function JsetFolded(n: Node): Node {
    if n.s == Jmp(Jset, K(0)) then n.(jt := n.jf)
    else if OnesRule(n) then n.(jf := n.jt)
    else n
  }

  function XFolded(n: Node, x: Option<Word>): Node {
    if x.Some? && n.s.Jmp? && n.s.src.X? then n.(s := Jmp(n.s.jop, K(x.value))) else n
  }

  function AFolded(n: Node, a: Option<Word>): Node
    requires n.s.Jmp?
  {
    if a.None? || n.s.src.X? then n
    else if Test(n.s.jop, a.value, n.s.src.k) then n.(jf := n.jt)
    else n.(jt := n.jf)
  }

  // The block chosen next.
  function Target(n: Node, m: State): Ref
    requires n.s.Jmp?
  {
    n.Succ(Taken(n.s, m))
  }

  /** The branch, or the operation before it, reads X. */
  ghost predicate NeedsX(n: Node) { (n.s.Jmp? && n.s.src.X?) || EndsReadingX(n.stmts) }

  // A holds this constant, and X does if it is needed.
  ghost predicate Knows(n: Node, x: Option<Word>, a: Option<Word>, m: State) {
    (x.Some? && NeedsX(n) ==> m[X_ATOM] == x.value) && (a.Some? ==> m[A_ATOM] == a.value)
  }

  ghost predicate PeepedAt(n: Node, n2: Node, out: set<Atom>, x: Option<Word>, a: Option<Word>, ones: bool, st: State, p: Packet) {
    var e, e2 := Exec(n.stmts, st, p), Exec(n2.stmts, st, p);
    e.Some? && Knows(n, x, a, e.value) ==>
      && e2.Some? && AgreeOn(out, e.value, e2.value) && (n2.s.Jmp? <==> n.s.Jmp?)
      && (!n.s.Jmp? ==> n2.s == n.s) && (n.s.RetA? ==> e2.value[A_ATOM] == e.value[A_ATOM])
      && (n.s.Jmp? ==> if ones && e.value[A_ATOM] == 0 then Target(n2, e2.value) == Target(n, e.value) <==> n.jt == n.jf
                       else Target(n2, e2.value) == Target(n, e.value))
  }

  ghost predicate Peeped(n: Node, n2: Node, out: set<Atom>, x: Option<Word>, a: Option<Word>, ones: bool) {
    forall st: State, p :: PeepedAt(n, n2, out, x, a, ones, st, p)
  }

  lemma {:induction false} PeepedSelf(n: Node, out: set<Atom>, x: Option<Word>, a: Option<Word>)
    ensures Peeped(n, n, out, x, a, false)
  {
    hide Exec;
    forall st: State, p ensures PeepedAt(n, n, out, x, a, false, st, p) {
    }
  }

  lemma {:induction false} FrontierNext(orig: seq<Stmt>, ss: seq<Stmt>, s: nat, next: nat)
    requires Frontier(orig, ss, s) && s < next
    ensures Frontier(orig, ss, s + 1) && Frontier(orig, ss, next)
  {
  }

  lemma {:induction false} FrontierFolded(orig: seq<Stmt>, ss: seq<Stmt>, s: nat, next: nat, add: nat, tax: nat, ild: nat)
    requires Frontier(orig, ss, s) && IndexPattern(ss, s, next, add, tax, ild)
    ensures var ss2 := IndexFolded(ss, s, add, tax, ild);
      Frontier(orig, ss2, s + 1) && Frontier(orig, ss2, next) && (ss2[next].Nop? ==> LoadNext(ss2, next))
  {
    hide Plus;
    var ss2 := IndexFolded(ss, s, add, tax, ild);
    assert forall l :: s <= l < |ss| ==> ss[l] == orig[l];
    assert NopsIn(ss2, add, ild) && ss2[ild].LdInd?;
  }

  /** Nothing but NOPs: no operation at the end. */
  lemma {:induction false} NoEnd(ss: seq<Stmt>, i: nat)
    requires i < |ss| && NopsIn(ss, i, |ss|) && (i > 0 && ss[i].Nop? ==> LoadNext(ss, i))
    ensures i == 0 && |Live(ss)| == 0
    ensures forall s :: !EndsIn(ss, s)
  {
    LiveAhead(ss, i, |ss|);
    assert ss[0..] == ss;
  }

  /** Statement s is the last real one. Either the scan has got to it, or it was there alone, or it is a load. */
  lemma {:induction false} OneLeft(ss: seq<Stmt>, last: nat, s: nat)
    requires last <= s < |ss| && !ss[s].Nop? && NopsIn(ss, last, s) && NopsIn(ss, s + 1, |ss|)
    requires last > 0 && ss[last].Nop? ==> LoadNext(ss, last)
    ensures last == 0 ==> |Live(ss)| == 1
    ensures last > 0 && ss[last].Nop? ==> forall t :: !EndsIn(ss, t)
  {
    LiveStep(ss, s, |ss|);
    assert ss == ss[..s] + ss[s..];
    LiveConcat(ss[..s], ss[s..]);
    if last == 0 {
      assert NopsIn(ss[..s], 0, s);
      LiveAhead(ss[..s], 0, s);
      assert ss[..s][0..] == ss[..s];
    } else if ss[last].Nop? {
      var j :| last <= j < |ss| && NopsIn(ss, last, j) && ss[j].LdInd?;
      assert j == s;
    }
  }

  lemma {:induction false} TwoLive(ss: seq<Stmt>, i: nat, j: nat)
    requires i < j < |ss| && !ss[i].Nop? && !ss[j].Nop? && NopsIn(ss, i + 1, j)
    ensures |Live(ss)| > 1
  {
    LiveStep(ss, i, j);
    assert ss == ss[..i] + ss[i..];
    LiveConcat(ss[..i], ss[i..]);
    assert ss[j..][0] == ss[j];
  }

  /** The branch of the block is, or is made, a test of all bits: a comparison with 0 behind an AND with all ones
      that the scan gets to. */
  predicate AllBits(n: Node, out: set<Atom>) {
    && |n.stmts| > 0
    && (n.s == Jmp(Jset, K(ONES))
        || (n.s == Jmp(Jeq, K(0)) && A_ATOM !in out && Scans(n.stmts) && EndsIn(n.stmts, Alu(AluOp.And, K(ONES)))))
  }

  lemma {:induction false} OnesExact(n0: Node, n1: Node, l: nat, out: set<Atom>, x: Option<Word>)
    requires |n0.stmts| > 0 && n1 == n0.(stmts := n1.stmts) && l < |n1.stmts|
    requires forall s :: EndsIn(n1.stmts, s) <==> EndsIn(n0.stmts, s)
    requires n1.stmts[l].Nop? || NopsIn(n1.stmts, l + 1, |n1.stmts|)
    requires !n1.stmts[l].Nop? ==> Scans(n0.stmts)
    requires n1.stmts[l].Nop? && Scans(n0.stmts) ==> forall s :: !EndsIn(n1.stmts, s)
    ensures OnesRule(LastFolded(n1, l, out, x)) <==> AllBits(n0, out)
  {
    hide Scans, NopsIn, Live;
    if n1.stmts[l].Alu? {
      LastIs(n1.stmts, l);
      EndUnique(n1.stmts, n1.stmts[l]);
    } else if !n1.stmts[l].Nop? {
      LastOther(n1.stmts, l);
    }
  }

  lemma {:induction false} EndUnique(ss: seq<Stmt>, s: Stmt)
    requires EndsIn(ss, s)
    ensures forall t :: EndsIn(ss, t) ==> t == s
  {
  }

  lemma {:induction false} LastOther(ss: seq<Stmt>, l: nat)
    requires l < |ss| && !ss[l].Nop? && !ss[l].Alu? && NopsIn(ss, l + 1, |ss|)
    ensures forall t :: !EndsIn(ss, t)
  {
    LiveStep(ss, l, |ss|);
    assert ss == ss[..l] + ss[l..];
    LiveConcat(ss[..l], ss[l..]);
  }

  predicate EndsReadingX(ss: seq<Stmt>) { exists op :: EndsIn(ss, Alu(op, X)) }

  // X is needed at the end as well when the last operation reads it, and A when it is returned.
  function LiveAtEnd(n: Node, out: set<Atom>): set<Atom> {
    (if EndsReadingX(n.stmts) then out + {X_ATOM} else out) + (if n.s.RetA? then {A_ATOM} else {})
  }

  lemma {:induction false} XSetBeforeRead(ss: seq<Stmt>, br: Branch, out: set<Atom>, i: nat)
    requires i < |ss| && X_ATOM in Uses(ss[i]) && X_ATOM !in LiveIn(ss, br, out)
    ensures X_ATOM !in LiveIn(ss, br, out + {X_ATOM})
  {
    hide Uses;
    if ss[0].Nop? {
      assert i > 0 by { NopReads(); }
      assert ss[1..][i-1] == ss[i];
      XSetBeforeRead(ss[1..], br, out, i - 1);
    } else if Def(ss[0]) == X_ATOM {
    } else {
      assert i > 0;
      assert ss[1..][i-1] == ss[i];
      XSetBeforeRead(ss[1..], br, out, i - 1);
    }
  }

  lemma {:induction false} AluReadsX(op: AluOp)
    ensures X_ATOM in Uses(Alu(op, X))
  {
  }

  lemma {:induction false} NopReads()
    ensures Uses(Nop) == {}
  {
  }

  lemma {:induction false} LastRealAt(ss: seq<Stmt>) returns (l: nat)
    requires |Live(ss)| > 0
    ensures l < |ss| && !ss[l].Nop? && Live(ss)[|Live(ss)|-1] == ss[l] && NopsIn(ss, l + 1, |ss|)
  {
    if |Live(ss[1..])| > 0 {
      var k := LastRealAt(ss[1..]);
      l := k + 1;
      forall j | l + 1 <= j < |ss| ensures ss[j].Nop? {
        assert ss[1..][j-1].Nop?;
      }
    } else {
      l := 0;
      NoneLive(ss[1..]);
      forall j | 1 <= j < |ss| ensures ss[j].Nop? {
        assert ss[1..][j-1].Nop?;
      }
    }
  }

  lemma {:induction false} NoneLive(ss: seq<Stmt>)
    requires |Live(ss)| == 0
    ensures NopsIn(ss, 0, |ss|)
  {
    if |ss| != 0 {
      NoneLive(ss[1..]);
      forall j | 0 <= j < |ss| ensures ss[j].Nop? {
        if j > 0 { assert ss[1..][j-1].Nop?; }
      }
    }
  }

  lemma {:induction false} LiveOneMore(ss: seq<Stmt>, br: Branch, out: set<Atom>, a: Atom)
    ensures LiveIn(ss, br, out + {a}) <= LiveIn(ss, br, out) + {a}
  {
    hide Uses, Def;
    if |ss| > 0 { LiveOneMore(ss[1..], br, out, a); }
  }

  lemma {:induction false} XRedefinedMore(n: Node, out: set<Atom>)
    ensures X_ATOM !in out && XRedefined(n.stmts, n.s, out) ==> XRedefined(n.stmts, n.s, LiveAtEnd(n, out))
  {
    hide LiveIn, Uses, EndsReadingX;
    var ss, more := n.stmts, if EndsReadingX(n.stmts) then out + {X_ATOM} else out;
    if X_ATOM !in out && XRedefined(ss, n.s, out) {
      forall j | 0 <= j < |ss| ensures XSetAfter(ss, n.s, LiveAtEnd(n, out), j) {
        assert XSetAfter(ss, n.s, out, j);
        if Folds(ss, j) {
          if EndsReadingX(ss) { XSetEnds(ss, n.s, out, j); }
          LiveOneMore(ss[j+1..], n.s, more, A_ATOM);
          assert LiveAtEnd(n, out) == if n.s.RetA? then more + {A_ATOM} else more;
        }
      }
    }
  }

  /** An operation at the end that reads X reads what has been set since the load. */
  lemma {:induction false} XSetEnds(ss: seq<Stmt>, br: Branch, out: set<Atom>, j: nat)
    requires j < |ss| && Folds(ss, j) && X_ATOM !in LiveIn(ss[j+1..], br, out) && EndsReadingX(ss)
    ensures X_ATOM !in LiveIn(ss[j+1..], br, out + {X_ATOM})
  {
    hide LiveIn, Uses;
    var op :| EndsIn(ss, Alu(op, X));
    var l := LastRealAt(ss);
    AluReadsX(op);
    assert j < l;
    assert ss[j+1..][l-j-1] == ss[l];
    XSetBeforeRead(ss[j+1..], br, out, l - j - 1);
  }

  lemma {:induction false} LastIs(ss: seq<Stmt>, l: nat)
    requires l < |ss| && ss[l].Alu? && NopsIn(ss, l + 1, |ss|)
    ensures EndsIn(ss, ss[l])
  {
    LiveStep(ss, l, |ss|);
    assert ss == ss[..l] + ss[l..];
    LiveConcat(ss[..l], ss[l..]);
  }

  /** Without its last operation a block leaves the state the operation would have started from. */
  lemma {:induction false} DropLast(ss: seq<Stmt>, l: nat, st: State, p: Packet)
    requires l < |ss| && ss[l].Alu? && NopsIn(ss, l + 1, |ss|) && Exec(ss, st, p).Some?
    ensures Exec(ss[l := Nop], st, p).Some?
    ensures var m := Exec(ss[l := Nop], st, p).value;
      Compute(ss[l].op, m[A_ATOM], Operand(ss[l].src, m)).Some?
      && Exec(ss, st, p).value == m[A_ATOM := Compute(ss[l].op, m[A_ATOM], Operand(ss[l].src, m)).value]
  {
    hide Compute;
    var ss2 := ss[l := Nop];
    LiveStep(ss, l, |ss|);
    LiveAhead(ss2, l, |ss|);
    assert ss[|ss|..] == [] && ss2[|ss|..] == [];
    assert [ss[l]] + Live([]) == [ss[l]] + [];
    WindowExec(ss, l, [ss[l]], [], st, p);
    assert ss2[..l] == ss[..l];
    WindowExec(ss2, l, [], [], st, p);
    ExecOne(ss[l], Exec(ss[..l], st, p).value, p);
  }

  lemma {:induction false} DiffEquals(a: Word, x: Word, k: Word)
    ensures Diff(a, x) == k <==> a == Plus(k, x)
    ensures Diff(a, x) == 0 <==> a == x
  {
    if a >= x {
      assert Diff(a, x) == a - x;
    } else {
      assert Diff(a, x) == a - x + M;
    }
    if k + x >= M {
      assert Plus(k, x) == k + x - M;
    } else {
      assert Plus(k, x) == k + x;
    }
  }

  /** Absorbing the last operation keeps X, all atoms but A, and the block chosen next. */
  lemma {:induction false} LastKeeps(n: Node, l: nat, out: set<Atom>, x: Option<Word>, st: State, p: Packet)
    requires l < |n.stmts| && (n.stmts[l].Nop? || NopsIn(n.stmts, l + 1, |n.stmts|)) && n.s.Jmp? && Exec(n.stmts, st, p).Some?
    requires x.Some? && n.stmts[l] == Alu(Sub, X) ==> Exec(n.stmts, st, p).value[X_ATOM] == x.value
    ensures var n2 := LastFolded(n, l, out, x);
      n2.s.Jmp? && (if n.stmts[l].Alu? then true else n2 == n)
      && Exec(n2.stmts, st, p).Some?
      && AgreeOn(out, Exec(n.stmts, st, p).value, Exec(n2.stmts, st, p).value)
      && Exec(n2.stmts, st, p).value[X_ATOM] == Exec(n.stmts, st, p).value[X_ATOM]
      && Target(n2, Exec(n2.stmts, st, p).value) == Target(n, Exec(n.stmts, st, p).value)
  {
    hide Exec, Plus, Diff, Band, NopsIn;
    if n.stmts[l].Alu? && n.s.jop == Jeq && n.s.src.K? {
      DropLast(n.stmts, l, st, p);
      var m := Exec(n.stmts[l := Nop], st, p).value;
      DiffEquals(m[A_ATOM], Operand(n.stmts[l].src, m), n.s.src.k);
    }
  }

  // A block that reads X after the load.
  function StaleBlock(): seq<Stmt> { [LdImm(1), Alu(Add, X), Tax, LdInd(B, 0), Txa] }

  lemma {:induction false} StaleBefore(st: State, p: Packet)
    requires Load(p, Plus(1, st[X_ATOM]), B).Some?
    ensures Exec(StaleBlock(), st, p).Some? && Exec(StaleBlock(), st, p).value[A_ATOM] == Plus(1, st[X_ATOM])
  {
    hide Step, Plus, Load;
    var a, b := [LdImm(1), Alu(Add, X)], [Tax, LdInd(B, 0)];
    var sum := Plus(1, st[X_ATOM]);
    var m := st[A_ATOM := sum];
    assert StaleBlock() == a + (b + [Txa]);
    ExecConcat(a, b + [Txa], st, p);
    ExecTwo(LdImm(1), Alu(Add, X), st, p);
    SumSteps(1, st, p);
    ExecConcat(b, [Txa], m, p);
    ExecTwo(Tax, LdInd(B, 0), m, p);
    StaleSteps(m, m[X_ATOM := sum], p);
    ExecOne(Txa, m[X_ATOM := sum][A_ATOM := Load(p, sum, B).value], p);
  }

  lemma {:induction false} StaleSteps(m: State, k: State, p: Packet)
    requires k == m[X_ATOM := m[A_ATOM]] && Load(p, m[A_ATOM], B).Some?
    ensures Step(Tax, m, p) == Some(k)
    ensures Step(LdInd(B, 0), k, p) == Some(k[A_ATOM := Load(p, m[A_ATOM], B).value])
    ensures Step(Txa, k[A_ATOM := Load(p, m[A_ATOM], B).value], p) == Some(k[A_ATOM := Load(p, m[A_ATOM], B).value][A_ATOM := k[X_ATOM]])
  {
    hide Load;
    ZeroSum(m[A_ATOM]);
  }

  lemma {:induction false} StaleAfter(st: State, p: Packet)
    requires Load(p, Plus(1, st[X_ATOM]), B).Some?
    ensures var ss := [Nop, Nop, Nop, LdInd(B, 1), Txa];
      Exec(ss, st, p).Some? && Exec(ss, st, p).value[A_ATOM] == st[X_ATOM]
  {
    hide Load;
    FoldedExec(LdInd(B, 1), Txa, st, p);
    ExecTwo(LdInd(B, 1), Txa, st, p);
  }

  /** Why X must be set again after the load: here the statement after it reads the X that is gone. */
  lemma {:induction false} StaleX(st: State, p: Packet)
    requires Load(p, Plus(1, st[X_ATOM]), B).Some?
    ensures IndexPattern(StaleBlock(), 0, 1, 1, 2, 3)
    ensures Exec(StaleBlock(), st, p).Some? && Exec(IndexFolded(StaleBlock(), 0, 1, 2, 3), st, p).Some?
    ensures Exec(StaleBlock(), st, p).value[A_ATOM] != Exec(IndexFolded(StaleBlock(), 0, 1, 2, 3), st, p).value[A_ATOM]
  {
    hide Exec, Load;
    StaleBefore(st, p);
    StaleAfter(st, p);
    assert IndexFolded(StaleBlock(), 0, 1, 2, 3) == [Nop, Nop, Nop, LdInd(B, 1), Txa];
  }

  lemma {:induction false} FoldedExec(s: Stmt, t: Stmt, st: State, p: Packet)
    ensures Exec([Nop, Nop, Nop, s, t], st, p) == Exec([s, t], st, p)
  {
    hide Step;
    var ss := [Nop, Nop, Nop, s, t];
    LiveAhead(ss, 0, 3);
    assert ss[0..] == ss && ss[3..] == [s, t];
    ExecLive(ss, st, p);
    ExecLive([s, t], st, p);
  }

  /** The rule for a test of no bits is right; the one for all bits is, exactly unless A is 0. */
  lemma {:induction false} JsetKeeps(n: Node, m: State)
    requires n.s.Jmp?
    ensures JsetFolded(n).s == n.s
    ensures Target(JsetFolded(n), m) == if OnesRule(n) then n.jt else Target(n, m)
    ensures OnesRule(n) ==> Target(n, m) == if m[A_ATOM] == 0 then n.jf else n.jt
    ensures Target(JsetFolded(n), m) == Target(n, m) <==> !(OnesRule(n) && m[A_ATOM] == 0 && n.jt != n.jf)
  {
    hide Band;
    BandZero(m[A_ATOM]);
    BandOnes(m[A_ATOM]);
  }

  lemma {:induction false} XKeeps(n: Node, x: Option<Word>, m: State)
    requires n.s.Jmp? && (x.Some? && n.s.src.X? ==> m[X_ATOM] == x.value)
    ensures var n2 := XFolded(n, x); n2.s.Jmp? && n2.jt == n.jt && n2.jf == n.jf && Target(n2, m) == Target(n, m)
  {
    hide Band;
  }

  lemma {:induction false} AKeeps(n: Node, a: Option<Word>, m: State)
    requires n.s.Jmp? && (a.Some? ==> m[A_ATOM] == a.value)
    ensures var n2 := AFolded(n, a); n2.s == n.s && Target(n2, m) == Target(n, m)
  {
    hide Band;
  }

  lemma {:induction false} StagesKeep(n0: Node, n1: Node, l: nat, out: set<Atom>, live: set<Atom>, x: Option<Word>, a: Option<Word>)
    requires n0.s.Jmp? && n1 == n0.(stmts := n1.stmts) && Kept(n0.stmts, n1.stmts, n0.s, live) && live == LiveAtEnd(n0, out)
    requires l < |n1.stmts| && (n1.stmts[l].Nop? || NopsIn(n1.stmts, l + 1, |n1.stmts|))
    requires a.Some? ==> forall s :: !EndsIn(n0.stmts, s)
    ensures var n2 := LastFolded(n1, l, out, x); n2.s.Jmp? && XFolded(JsetFolded(n2), x).s.Jmp?
    ensures var n2 := LastFolded(n1, l, out, x); Peeped(n0, AFolded(XFolded(JsetFolded(n2), x), a), out, x, a, OnesRule(n2))
  {
    hide Exec, EndsIn, NopsIn, LastFolded, JsetFolded, XFolded, AFolded, OnesRule, Target, Trimmed;
    StagesJmp(n1, l, out, x);
    var n2 := LastFolded(n1, l, out, x);
    var n5 := AFolded(XFolded(JsetFolded(n2), x), a);
    forall st: State, p ensures PeepedAt(n0, n5, out, x, a, OnesRule(n2), st, p) {
      if Exec(n0.stmts, st, p).Some? && Knows(n0, x, a, Exec(n0.stmts, st, p).value) {
        StagesRun(n0, n1, l, out, live, x, a, st, p);
      }
    }
  }

  lemma {:induction false} StagesJmp(n1: Node, l: nat, out: set<Atom>, x: Option<Word>)
    requires n1.s.Jmp? && l < |n1.stmts|
    ensures var n2 := LastFolded(n1, l, out, x); n2.s.Jmp? && JsetFolded(n2).s.Jmp? && XFolded(JsetFolded(n2), x).s.Jmp?
    ensures var n2 := LastFolded(n1, l, out, x); n2.jt == n2.jf <==> n1.jt == n1.jf
    ensures var n2 := LastFolded(n1, l, out, x); forall a :: var n5 := AFolded(XFolded(JsetFolded(n2), x), a); {n5.jt, n5.jf} <= {n1.jt, n1.jf}
    ensures var n2 := LastFolded(n1, l, out, x); x.Some? && n2.s.src.X? ==> n1.s.src.X?
    ensures var n2 := LastFolded(n1, l, out, x); forall a :: AFolded(XFolded(JsetFolded(n2), x), a).s.Jmp? && AFolded(XFolded(JsetFolded(n2), x), a).stmts == n2.stmts
  {
  }

  lemma {:induction false} StagesRun(n0: Node, n1: Node, l: nat, out: set<Atom>, live: set<Atom>, x: Option<Word>, a: Option<Word>, st: State, p: Packet)
    requires n0.s.Jmp? && n1 == n0.(stmts := n1.stmts) && Kept(n0.stmts, n1.stmts, n0.s, live) && live == LiveAtEnd(n0, out)
    requires l < |n1.stmts| && (n1.stmts[l].Nop? || NopsIn(n1.stmts, l + 1, |n1.stmts|))
    requires a.Some? ==> forall s :: !EndsIn(n0.stmts, s)
    requires Exec(n0.stmts, st, p).Some? && Knows(n0, x, a, Exec(n0.stmts, st, p).value)
    ensures var n2 := LastFolded(n1, l, out, x); n2.s.Jmp? && XFolded(JsetFolded(n2), x).s.Jmp?
    ensures var n2 := LastFolded(n1, l, out, x);
      PeepedAt(n0, AFolded(XFolded(JsetFolded(n2), x), a), out, x, a, OnesRule(n2), st, p)
  {
    hide Exec, EndsIn, NopsIn, LastFolded, JsetFolded, XFolded, AFolded, OnesRule;
    StagesJmp(n1, l, out, x);
    var m := Exec(n0.stmts, st, p).value;
    var n2 := LastFolded(n1, l, out, x);
    var n3 := JsetFolded(n2);
    assert TrimmedAt(n0.stmts, n1.stmts, live + CountedUses(n0.s), st, p);
    var m1 := Exec(n1.stmts, st, p).value;
    assert A_ATOM in CountedUses(n0.s) && (n0.s.src.X? ==> X_ATOM in CountedUses(n0.s));
    if n1.stmts[l].Alu? {
      LastIs(n1.stmts, l);
      assert EndsIn(n0.stmts, n1.stmts[l]);
      assert a.None?;
      if n1.stmts[l] == Alu(Sub, X) {
        assert EndsReadingX(n0.stmts);
        assert X_ATOM in live;
      }
    }
    assert Taken(n1.s, m1) == Taken(n0.s, m) by { hide Band; }
    LastKeeps(n1, l, out, x, st, p);
    if OnesRule(n2) { OnesKeepsA(n1, l, out, x, st, p); }
    var m2 := Exec(n2.stmts, st, p).value;
    JsetKeeps(n2, m2);
    XKeeps(n3, x, m2);
    AKeeps(XFolded(n3, x), a, m2);
  }

  /** An AND with all ones leaves A as it is. */
  lemma {:induction false} OnesKeepsA(n: Node, l: nat, out: set<Atom>, x: Option<Word>, st: State, p: Packet)
    requires l < |n.stmts| && (n.stmts[l].Nop? || NopsIn(n.stmts, l + 1, |n.stmts|)) && n.s.Jmp? && Exec(n.stmts, st, p).Some?
    requires OnesRule(LastFolded(n, l, out, x))
    ensures var e := Exec(LastFolded(n, l, out, x).stmts, st, p); e.Some? && e.value[A_ATOM] == Exec(n.stmts, st, p).value[A_ATOM]
  {
    hide Exec, NopsIn, Band, Plus;
    if n.s.jop == Jeq {
      DropLast(n.stmts, l, st, p);
      BandOnes(Exec(n.stmts[l := Nop], st, p).value[A_ATOM]);
    }
  }

  lemma {:induction false} KeptSelf(ss: seq<Stmt>, br: Branch, out: set<Atom>)
    ensures Kept(ss, ss, br, out)
  {
    TrimmedSelf(ss);
    TrimmedThen(ss, ss, ss, From(0), From(0), out + CountedUses(br));
  }

  lemma {:induction false} SuffixSet(orig: seq<Stmt>, ss: seq<Stmt>, br: Branch, out: set<Atom>, s: nat, msh: nat, add: nat, tax: nat, j: nat)
    requires IndexPattern(ss, s, msh, add, tax, j) && Frontier(orig, ss, s) && XRedefined(orig, br, out)
    ensures ss[s].k == 0 || X_ATOM !in LiveIn(ss[j+1..], br, out)
  {
    hide LiveIn;
    assert forall k :: s <= k < |ss| ==> ss[k] == orig[k];
    assert IndexPattern(orig, s, msh, add, tax, j);
    assert ss[j+1..] == orig[j+1..];
    assert XSetAfter(orig, br, out, j);
  }

  lemma {:induction false} NopKeeps(s: Stmt, val: Vals, alter: bool, mid: Vals, keys: seq<Key>)
    requires Exactly(s, val, alter, Nop, mid, keys)
    ensures mid == val
  {
    hide NumOf, ConstAt, Compute, Plus, Opposite;
  }

  lemma {:induction false} NopsKeep(ss: seq<Stmt>, val: Vals, alter: bool, ss2: seq<Stmt>, val2: Vals, keys: seq<Key>)
    requires ExactlyAll(ss, val, alter, ss2, val2, keys) && NopsIn(ss2, 0, |ss2|)
    ensures val2 == val
    decreases |ss|
  {
    hide PlanFor, Carry, Served;
    if |ss| > 0 {
      var r := Carry(PlanFor(ss[0], val, alter, keys), ss[0], val, alter, keys);
      assert ss2[0].Nop? && Exactly(ss[0], val, alter, Nop, r.1, keys);
      NopKeeps(ss[0], val, alter, r.1, keys);
      assert NopsIn(ss2[1..], 0, |ss2[1..]|) by {
        forall k | 0 <= k < |ss2[1..]| ensures ss2[1..][k].Nop? { assert ss2[k+1].Nop?; }
      }
      NopsKeep(ss[1..], r.1, alter, ss2[1..], val2, keys);
    }
  }

  lemma {:induction false} OperationKeyed(s: Stmt, val: Vals, alter: bool, s2: Stmt, mid: Vals, keys: seq<Key>)
    requires Exactly(s, val, alter, s2, mid, keys) && s2.Alu?
    ensures ConstAt(keys, mid[A_ATOM]) == None
  {
    hide NumOf, Compute, Plus, Opposite;
  }

  /** After numbering, with rewriting or without, A is never taken for a constant where the block left ends in an operation. */
  lemma {:induction false} OperationNotConst(ss: seq<Stmt>, val: Vals, alter: bool, ss2: seq<Stmt>, val2: Vals, keys: seq<Key>, s: Stmt)
    requires ExactlyAll(ss, val, alter, ss2, val2, keys) && EndsIn(ss2, s)
    ensures ConstAt(keys, val2[A_ATOM]) == None
    decreases |ss|
  {
    hide PlanFor, Carry, Served, ConstAt;
    if |ss| > 0 {
      var r := Carry(PlanFor(ss[0], val, alter, keys), ss[0], val, alter, keys);
      if |Live(ss2[1..])| == 0 {
        NoneLive(ss2[1..]);
        OperationKeyed(ss[0], val, alter, ss2[0], r.1, keys);
        NopsKeep(ss[1..], r.1, alter, ss2[1..], val2, keys);
      } else {
        OperationNotConst(ss[1..], r.1, alter, ss2[1..], val2, keys, s);
      }
    }
  }
}
