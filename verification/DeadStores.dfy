/** Removing statements whose result is overwritten or never used. */
module DeadStores {
  import opened Bpf
  import opened Blocks
  import opened Liveness

  function From(k: nat): (r: set<Atom>)
    ensures forall a: Atom :: a in r <==> k <= a
    decreases N_ATOMS - k
  {
    if k >= N_ATOMS then {} else {k} + From(k + 1)
  }

  // Every atom but a.
  function Others(a: Atom): set<Atom> { From(0) - {a} }

  predicate SpareAt(ss: seq<Stmt>, a: Atom, k: nat)
    requires k < |ss|
  {
    a !in Uses(ss[k])
  }

  /** Statements that never read a end in states that differ at most in a, if they start so. */
  lemma {:induction false} ExecOff(ss: seq<Stmt>, a: Atom, x: State, y: State, p: Packet)
    requires AgreeOn(Others(a), x, y) && forall k {:trigger SpareAt(ss, a, k)} :: 0 <= k < |ss| ==> SpareAt(ss, a, k)
    ensures BothEnd(Others(a), Exec(ss, x, p), Exec(ss, y, p))
  {
    hide Uses, Value;
    if |ss| != 0 {
      assert SpareAt(ss, a, 0);
      forall k | 0 <= k < |ss[1..]| ensures SpareAt(ss[1..], a, k) {
        assert SpareAt(ss, a, k + 1);
      }
      if ss[0].Nop? {
        ExecOff(ss[1..], a, x, y, p);
      } else {
        StepAgrees(ss[0], Others(a), x, y, p);
        if Step(ss[0], x, p).Some? {
          ExecOff(ss[1..], a, Step(ss[0], x, p).value, Step(ss[0], y, p).value, p);
        }
      }
    }
  }

  // Statement j, the last so far to set a, has not been read before i.
  predicate Pending(ss: seq<Stmt>, a: Atom, j: Ref, i: nat)
    requires i <= |ss|
  {
    j != NIL ==>
      && j < i && !ss[j].Nop? && Def(ss[j]) == a
      && forall k {:trigger SpareAt(ss, a, k)} :: j < k < i ==> SpareAt(ss, a, k)
  }

  /** Whenever the first run does not fault, neither does the second, and they agree on keep. */
  predicate TrimmedAt(ss: seq<Stmt>, ss': seq<Stmt>, keep: set<Atom>, st: State, p: Packet) {
    Exec(ss, st, p).Some? ==> Exec(ss', st, p).Some? && AgreeOn(keep, Exec(ss, st, p).value, Exec(ss', st, p).value)
  }

  ghost predicate Trimmed(ss: seq<Stmt>, ss': seq<Stmt>, keep: set<Atom>) {
    forall st: State, p :: TrimmedAt(ss, ss', keep, st, p)
  }

  lemma {:induction false} TrimmedThen(x: seq<Stmt>, y: seq<Stmt>, z: seq<Stmt>, k1: set<Atom>, k2: set<Atom>, keep: set<Atom>)
    requires Trimmed(x, y, k1) && Trimmed(y, z, k2) && keep <= k1 && keep <= k2
    ensures Trimmed(x, z, keep)
  {
    hide Exec;
    forall st: State, p ensures TrimmedAt(x, z, keep, st, p) {
      assert TrimmedAt(x, y, k1, st, p) && TrimmedAt(y, z, k2, st, p);
    }
  }

  /** Dropping a store that is not read before i changes nothing but its own atom. */
  lemma {:induction false} DropPending(ss: seq<Stmt>, a: Atom, j: Id, i: nat)
    requires i <= |ss| && Pending(ss, a, j, i)
    ensures Trimmed(ss[..i], ss[j := Nop][..i], Others(a))
  {
    var mid := ss[j+1..i];
    assert ss[..i] == ss[..j] + ([ss[j]] + mid);
    assert ss[j := Nop][..i] == ss[..j] + ([Nop] + mid);
    forall k | 0 <= k < |mid| ensures SpareAt(mid, a, k) {
      assert SpareAt(ss, a, j + 1 + k);
    }
    var x, y := ss[..i], ss[j := Nop][..i];
    forall st: State, p ensures TrimmedAt(x, y, Others(a), st, p) {
      DropOne(ss[..j], ss[j], mid, a, st, p);
    }
  }

  lemma {:induction false} StepsOnly(s: Stmt, m: State, p: Packet)
    requires !s.Nop? && Step(s, m, p).Some?
    ensures AgreeOn(Others(Def(s)), Step(s, m, p).value, m)
  {
    hide Value, Def;
  }

  lemma {:induction false} DropOne(pre: seq<Stmt>, s: Stmt, mid: seq<Stmt>, a: Atom, st: State, p: Packet)
    requires !s.Nop? && Def(s) == a && forall k {:trigger SpareAt(mid, a, k)} :: 0 <= k < |mid| ==> SpareAt(mid, a, k)
    ensures TrimmedAt(pre + ([s] + mid), pre + ([Nop] + mid), Others(a), st, p)
  {
    hide Uses, Value, Step, Def;
    ExecConcat(pre, [s] + mid, st, p);
    ExecConcat(pre, [Nop] + mid, st, p);
    if Exec(pre, st, p).Some? {
      var m := Exec(pre, st, p).value;
      assert ([s] + mid)[1..] == mid && ([Nop] + mid)[1..] == mid;
      NopSteps(m, p);
      if Step(s, m, p).Some? {
        StepsOnly(s, m, p);
        ExecOff(mid, a, Step(s, m, p).value, m, p);
      }
    }
  }

  /** A statement that overwrites the one atom two states differ in makes them equal. */
  lemma {:induction false} Overwrite(ss: seq<Stmt>, ss': seq<Stmt>, i: nat)
    requires i < |ss| == |ss'| && ss[i] == ss'[i] && !ss[i].Nop? && Def(ss[i]) !in Uses(ss[i])
    requires Trimmed(ss[..i], ss'[..i], Others(Def(ss[i])))
    ensures Trimmed(ss[..i+1], ss'[..i+1], From(0))
  {
    hide Uses, Def;
    assert ss[..i+1] == ss[..i] + [ss[i]] && ss'[..i+1] == ss'[..i] + [ss[i]];
    var z, z' := ss[..i+1], ss'[..i+1];
    forall st: State, p ensures TrimmedAt(z, z', From(0), st, p) {
      assert TrimmedAt(ss[..i], ss'[..i], Others(Def(ss[i])), st, p);
      ExecConcat(ss[..i], [ss[i]], st, p);
      ExecConcat(ss'[..i], [ss[i]], st, p);
      if Exec(ss[..i], st, p).Some? {
        var x, y := Exec(ss[..i], st, p).value, Exec(ss'[..i], st, p).value;
        StepAgrees(ss[i], From(0), x, y, p);
        ExecOne(ss[i], x, p);
        ExecOne(ss[i], y, p);
      }
    }
  }

  lemma {:induction false} ExecOne(s: Stmt, st: State, p: Packet)
    ensures Exec([s], st, p) == Step(s, st, p)
  {
    hide Step;
    assert [s][1..] == [];
  }

  /** The same statement after equal states. */
  lemma {:induction false} TrimmedPush(ss: seq<Stmt>, ss': seq<Stmt>, i: nat)
    requires i < |ss| == |ss'| && ss[i] == ss'[i] && Trimmed(ss[..i], ss'[..i], From(0))
    ensures Trimmed(ss[..i+1], ss'[..i+1], From(0))
  {
    hide Step;
    assert ss[..i+1] == ss[..i] + [ss[i]] && ss'[..i+1] == ss'[..i] + [ss[i]];
    var z, z' := ss[..i+1], ss'[..i+1];
    forall st: State, p ensures TrimmedAt(z, z', From(0), st, p) {
      assert TrimmedAt(ss[..i], ss'[..i], From(0), st, p);
      ExecConcat(ss[..i], [ss[i]], st, p);
      ExecConcat(ss'[..i], [ss[i]], st, p);
      if Exec(ss[..i], st, p).Some? {
        AgreeEverywhere(Exec(ss[..i], st, p).value, Exec(ss'[..i], st, p).value);
      }
    }
  }

  lemma {:induction false} AgreeEverywhere(x: State, y: State)
    requires AgreeOn(From(0), x, y)
    ensures x == y
  {
    forall a: nat | a < N_ATOMS ensures x[a] == y[a] {
      var b: Atom := a;
      assert b in From(0);
    }
  }

  lemma {:induction false} PendingDropped(ss: seq<Stmt>, a: Atom, j: Ref, i: nat, d: Id)
    requires i <= |ss| && Pending(ss, a, j, i) && d < |ss| && (j == d ==> j == NIL)
    ensures Pending(ss[d := Nop], a, j, i)
  {
    if j != NIL {
      var ss' := ss[d := Nop];
      forall k | j < k < i ensures SpareAt(ss', a, k) {
        assert SpareAt(ss, a, k);
      }
    }
  }

  lemma {:induction false} PendingPassed(ss: seq<Stmt>, a: Atom, j: Ref, i: nat)
    requires i < |ss| && Pending(ss, a, j, i) && (j == NIL || a !in Uses(ss[i]))
    ensures Pending(ss, a, j, i + 1)
  {
    if j != NIL {
      forall k | j < k < i + 1 ensures SpareAt(ss, a, k) {
      }
    }
  }

  lemma {:induction false} PendingHere(ss: seq<Stmt>, i: nat)
    requires i < |ss| && !ss[i].Nop?
    ensures Pending(ss, Def(ss[i]), i, i + 1)
  {
  }

  lemma {:induction false} TrimmedSelf(ss: seq<Stmt>)
    ensures Trimmed(ss, ss, From(0))
  {
    hide Exec;
  }

  // What becomes of the value of a between statements k and i.
  datatype Fate = Read | Overwritten | Reaches

  function FateOf(ss: seq<Stmt>, a: Atom, k: nat, i: nat): Fate
    requires i <= |ss|
    decreases i - k
  {
    if k >= i then Reaches
    else if a in Uses(ss[k]) then Read
    else if !ss[k].Nop? && Def(ss[k]) == a then Overwritten
    else FateOf(ss, a, k + 1, i)
  }

  /** The statement sets an atom that a later one reads, or that still matters at the end. */
  predicate Needed(ss: seq<Stmt>, k: nat, keep: set<Atom>)
    requires k < |ss|
  {
    !ss[k].Nop? && match FateOf(ss, Def(ss[k]), k + 1, |ss|)
      case Read => true
      case Overwritten => false
      case Reaches => Def(ss[k]) in keep
  }

  lemma {:induction false} FateNext(ss: seq<Stmt>, a: Atom, k: nat, i: nat)
    requires k <= i < |ss|
    ensures FateOf(ss, a, k, i + 1) == if FateOf(ss, a, k, i).Reaches? then FateOf(ss, a, i, i + 1) else FateOf(ss, a, k, i)
    decreases i - k
  {
    hide Uses, Def;
    if k < i { FateNext(ss, a, k + 1, i); }
  }

  /** Exactly which of the first i statements are gone, and which are pending. */
  predicate SettledAt(orig: seq<Stmt>, ss: seq<Stmt>, last: seq<Ref>, i: nat, k: nat)
    requires k < |orig| == |ss| && |last| == N_ATOMS && i <= |orig|
  {
    if k >= i || orig[k].Nop? then ss[k] == orig[k]
    else
      var f := FateOf(orig, Def(orig[k]), k + 1, i);
      ss[k] == (if f.Overwritten? then Nop else orig[k]) && (last[Def(orig[k])] == k <==> f.Reaches?)
  }

  predicate Settled(orig: seq<Stmt>, ss: seq<Stmt>, last: seq<Ref>, i: nat) {
    && |orig| == |ss| && |last| == N_ATOMS && i <= |orig|
    && (forall a: Atom {:trigger last[a]} :: Pending(ss, a, last[a], i))
    && forall k {:trigger SettledAt(orig, ss, last, i, k)} :: 0 <= k < |orig| ==> SettledAt(orig, ss, last, i, k)
  }

  /** What is left once the pending stores of the atoms in drop are gone too. */
  predicate LeftAt(orig: seq<Stmt>, ss: seq<Stmt>, drop: set<Atom>, k: nat)
    requires k < |orig| == |ss|
  {
    if orig[k].Nop? then ss[k] == Nop
    else
      var f := FateOf(orig, Def(orig[k]), k + 1, |orig|);
      ss[k] == if f.Overwritten? || (f.Reaches? && Def(orig[k]) in drop) then Nop else orig[k]
  }

  predicate Left(orig: seq<Stmt>, ss: seq<Stmt>, drop: set<Atom>) {
    |orig| == |ss| && forall k {:trigger LeftAt(orig, ss, drop, k)} :: 0 <= k < |orig| ==> LeftAt(orig, ss, drop, k)
  }

  lemma {:induction false} SettledLeft(orig: seq<Stmt>, ss: seq<Stmt>, last: seq<Ref>)
    requires Settled(orig, ss, last, |orig|)
    ensures Left(orig, ss, {}) && |last| == N_ATOMS
  {
    forall k | 0 <= k < |orig| ensures LeftAt(orig, ss, {}, k) {
      assert SettledAt(orig, ss, last, |orig|, k);
    }
  }

  lemma {:induction false} LeftNext(orig: seq<Stmt>, ss0: seq<Stmt>, last: seq<Ref>, ss: seq<Stmt>, drop: set<Atom>, a: Atom)
    requires Settled(orig, ss0, last, |orig|) && Left(orig, ss, drop) && |last| == N_ATOMS
    ensures |orig| == |ss| && Left(orig, Without(ss, last[a]), drop + {a})
  {
    if last[a] != NIL { assert SettledAt(orig, ss0, last, |orig|, last[a]); }
    forall k | 0 <= k < |orig| ensures LeftAt(orig, Without(ss, last[a]), drop + {a}, k) {
      assert LeftAt(orig, ss, drop, k);
      assert SettledAt(orig, ss0, last, |orig|, k);
    }
  }

  function Cleared(last: seq<Ref>, u: set<Atom>): (r: seq<Ref>)
    requires |last| == N_ATOMS
    ensures |r| == N_ATOMS && forall a: Atom {:trigger r[a]} :: r[a] == if a in u then NIL else last[a]
  {
    seq(N_ATOMS, (a: nat) requires a < N_ATOMS => if a in u then NIL else last[a])
  }

  function Without(ss: seq<Stmt>, d: Ref): seq<Stmt> { if 0 <= d < |ss| then ss[d := Nop] else ss }

  // What DeadStmt does for statement s at index i.
  predicate Advanced(s: Stmt, i: nat, ss: seq<Stmt>, last: seq<Ref>, ss': seq<Stmt>, last': seq<Ref>)
    requires |last| == |last'| == N_ATOMS
  {
    var read := Cleared(last, Uses(s));
    if s.Nop? then ss' == ss && last' == read
    else last' == read[Def(s) := i] && ss' == Without(ss, read[Def(s)])
  }

  lemma {:induction false} SettledNext(orig: seq<Stmt>, ss: seq<Stmt>, last: seq<Ref>, i: nat, ss': seq<Stmt>, last': seq<Ref>)
    requires Settled(orig, ss, last, i) && i < |orig| && |last'| == N_ATOMS
    requires Advanced(orig[i], i, ss, last, ss', last') && forall a: Atom {:trigger last'[a]} :: Pending(ss', a, last'[a], i + 1)
    ensures Settled(orig, ss', last', i + 1)
  {
    hide Uses, Advanced, Pending, SettledAt;
    AdvancedLength(orig[i], i, ss, last, ss', last');
    var i' := i + 1;
    forall k | 0 <= k < |orig| ensures SettledAt(orig, ss', last', i', k) {
      SettledNextAt(orig, ss, last, i, ss', last', k);
    }
  }

  lemma {:induction false} AdvancedLength(s: Stmt, i: nat, ss: seq<Stmt>, last: seq<Ref>, ss': seq<Stmt>, last': seq<Ref>)
    requires |last| == |last'| == N_ATOMS
    ensures Advanced(s, i, ss, last, ss', last') ==> |ss'| == |ss|
  {
  }

  lemma {:induction false} SettledNextAt(orig: seq<Stmt>, ss: seq<Stmt>, last: seq<Ref>, i: nat, ss': seq<Stmt>, last': seq<Ref>, k: nat)
    requires Settled(orig, ss, last, i) && i < |orig| && |last'| == N_ATOMS && k < |orig|
    requires Advanced(orig[i], i, ss, last, ss', last')
    ensures |ss'| == |orig| && SettledAt(orig, ss', last', i + 1, k)
  {
    hide Uses;
    assert SettledAt(orig, ss, last, i, i);
    assert SettledAt(orig, ss, last, i, k);
    if !orig[i].Nop? {
      var d := Cleared(last, Uses(orig[i]))[Def(orig[i])];
      if d != NIL { assert SettledAt(orig, ss, last, i, d); }
    }
    if k < i && !orig[k].Nop? { FateNext(orig, Def(orig[k]), k + 1, i); }
  }

  class Sweeper {
    var stmts: seq<Stmt>
    // For each atom, the statement that last set it and has not been read since.
    var last: seq<Ref>

    ghost predicate Valid(i: nat)
      reads this
    {
      && i <= |stmts| && |last| == N_ATOMS
      && forall a: Atom {:trigger last[a]} :: Pending(stmts, a, last[a], i)
    }

    constructor (ss: seq<Stmt>)
      ensures Valid(0) && stmts == ss && forall a: Atom {:trigger last[a]} :: last[a] == NIL
    {
      stmts, last := ss, seq(N_ATOMS, _ => NIL);
    }

    /** Forget the pending stores that u reads. */
    method Read(u: set<Atom>, i: nat)
      requires Valid(i)
      modifies `last
      ensures Valid(i) && last == Cleared(old(last), u)
    {
      last := Cleared(last, u);
    }

    /** Turn statement d, pending for atom a, into a NOP. */
    method Kill(a: Atom, i: nat)
      requires Valid(i) && last[a] != NIL
      modifies this
      ensures Valid(i) && old(last)[a] < i && last == old(last)[a := NIL] && stmts == old(stmts)[old(last)[a] := Nop]
    {
      var d := last[a];
      forall b: Atom | b != a ensures Pending(stmts[d := Nop], b, last[b], i) {
        PendingDropped(stmts, b, last[b], i, d);
      }
      stmts := stmts[d := Nop];
      last := last[a := NIL];
    }

    /** Statement i itself: what it reads is needed, and what it overwrites unread is dropped. */
    method DeadStmt(i: nat)
      requires Valid(i) && i < |stmts|
      modifies this
      ensures Valid(i + 1) && |stmts| == |old(stmts)| && stmts[i..] == old(stmts)[i..]
      ensures Trimmed(old(stmts)[..i+1], stmts[..i+1], From(0))
      ensures Advanced(old(stmts)[i], i, old(stmts), old(last), stmts, last)
    {
      hide Uses, Def, Trimmed, Pending;
      ghost var was := stmts;
      var s := stmts[i];
      Read(Uses(s), i);
      if s.Nop? {
        TrimmedSelf(was[..i]);
        TrimmedPush(was, stmts, i);
        forall b: Atom ensures Pending(stmts, b, last[b], i + 1) {
          PendingPassed(stmts, b, last[b], i);
        }
      } else {
        var a := Def(s);
        if last[a] != NIL {
          DropPending(was, a, last[a], i);
          Kill(a, i);
          Overwrite(was, stmts, i);
        } else {
          TrimmedSelf(was[..i]);
          TrimmedPush(was, stmts, i);
        }
        forall b: Atom ensures Pending(stmts, b, last[b], i + 1) {
          PendingPassed(stmts, b, last[b], i);
        }
        PendingHere(stmts, i);
        last := last[a := i];
      }
    }

    /** All statements in order: exactly the stores overwritten unread are dropped. */
    method ScanStmts()
      requires Valid(0) && forall a: Atom {:trigger last[a]} :: last[a] == NIL
      modifies this
      ensures Valid(|stmts|) && |stmts| == |old(stmts)| && Settled(old(stmts), stmts, last, |old(stmts)|)
      ensures Trimmed(old(stmts), stmts, From(0))
    {
      hide Trimmed, Pending, Advanced, SettledAt;
      ghost var was := stmts;
      var i := 0;
      TrimmedSelf(was[..0]);
      SettledStart(was, last);
      while i < |stmts|
        invariant i <= |stmts| && Valid(i) && |stmts| == |was| && stmts[i..] == was[i..]
        invariant Trimmed(was[..i], stmts[..i], From(0)) && Settled(was, stmts, last, i)
      {
        ghost var mid, before := stmts, last;
        assert stmts[i] == stmts[i..][0] == was[i..][0] == was[i];
        DeadStmt(i);
        SettledNext(was, mid, before, i, stmts, last);
        i := i + 1;
        FromStep(was, mid, stmts, i - 1);
      }
      assert was[..i] == was && stmts[..i] == stmts;
    }

    /** Drop the store pending for atom a, unless outUse has it. */
    method DropAtom(a: Atom, outUse: set<Atom>, ghost uses: set<Atom>, ghost orig: seq<Stmt>, ghost ss0: seq<Stmt>, ghost last0: seq<Ref>,
                    ghost drop: set<Atom>)
      requires Valid(|stmts|) && |last0| == N_ATOMS && Settled(orig, ss0, last0, |orig|) && Left(orig, stmts, drop)
      requires last[a] == Cleared(last0, uses)[a]
      modifies this
      ensures Valid(|stmts|) && |stmts| == |old(stmts)| && Left(orig, stmts, drop + ({a} - outUse - uses))
      ensures last[a := NIL] == old(last)[a := NIL]
      ensures Trimmed(old(stmts), stmts, if a in outUse + uses then From(0) else Others(a))
    {
      hide Trimmed, Pending, Settled, Left;
      ghost var mid := stmts;
      LeftNext(orig, ss0, last0, stmts, drop, a);
      TrimmedSelf(stmts);
      assert a in outUse + uses ==> drop + ({a} - outUse - uses) == drop;
      assert a !in outUse + uses ==> drop + ({a} - outUse - uses) == drop + {a};
      TrimmedThen(stmts, stmts, stmts, From(0), From(0), Others(a));
      if last[a] != NIL && a !in outUse {
        DropPending(stmts, a, last[a], |stmts|);
        Kill(a, |stmts|);
        assert mid[..|mid|] == mid && stmts[..|mid|] == stmts;
      }
    }

    /** Drop exactly the stores whose value is overwritten unread, or is not used by the branch nor in outUse:
        a run of the block that does not fault ends as before on those atoms. */
    method OptDeadstores(br: Branch, outUse: set<Atom>)
      requires Valid(0) && forall a: Atom {:trigger last[a]} :: last[a] == NIL
      modifies this
      ensures Trimmed(old(stmts), stmts, outUse + BranchUses(br))
      ensures |stmts| == |old(stmts)|
      ensures forall k :: 0 <= k < |stmts| ==>
        stmts[k] == if Needed(old(stmts), k, outUse + BranchUses(br)) then old(stmts)[k] else Nop
    {
      hide Trimmed, Pending, BranchUses, Settled, Left, FateOf;
      ghost var orig := stmts;
      ScanStmts();
      ghost var ss0, last0 := stmts, last;
      SettledLeft(orig, ss0, last0);
      Read(BranchUses(br), |stmts|);
      ghost var uses := BranchUses(br);
      ghost var keep := outUse + uses;
      var a := 0;
      TrimmedThen(orig, ss0, ss0, From(0), From(0), keep + From(0)) by { TrimmedSelf(ss0); }
      assert {} == (From(0) - From(0)) - keep;
      while a < N_ATOMS
        invariant 0 <= a <= N_ATOMS && Valid(|stmts|) && |stmts| == |orig|
        invariant Trimmed(orig, stmts, keep + From(a)) && Left(orig, stmts, (From(0) - From(a)) - keep)
        invariant forall b: Atom {:trigger last[b]} :: a <= b ==> last[b] == Cleared(last0, uses)[b]
      {
        ghost var mid, before := stmts, last;
        DropAtom(a, outUse, uses, orig, ss0, last0, (From(0) - From(a)) - keep);
        forall b: Atom | b != a ensures last[b] == before[b] {
          assert last[a := NIL][b] == before[a := NIL][b];
        }
        TrimmedThen(orig, mid, stmts, keep + From(a), if a in outUse + uses then From(0) else Others(a), keep + From(a + 1));
        DropNext(a, outUse, uses);
        a := a + 1;
      }
      assert keep + From(N_ATOMS) == keep;
      LeftNeeded(orig, stmts, keep);
    }
  }

  lemma {:induction false} DropNext(a: Atom, outUse: set<Atom>, uses: set<Atom>)
    ensures (From(0) - From(a + 1)) - (outUse + uses) == (From(0) - From(a)) - (outUse + uses) + ({a} - outUse - uses)
  {
  }

  lemma {:induction false} SettledStart(ss: seq<Stmt>, last: seq<Ref>)
    requires |last| == N_ATOMS && forall a: Atom {:trigger last[a]} :: last[a] == NIL
    ensures Settled(ss, ss, last, 0)
  {
  }

  lemma {:induction false} LeftNeeded(orig: seq<Stmt>, ss: seq<Stmt>, keep: set<Atom>)
    requires Left(orig, ss, (From(0) - From(N_ATOMS)) - keep)
    ensures |ss| == |orig|
    ensures forall k :: 0 <= k < |ss| ==> ss[k] == if Needed(orig, k, keep) then orig[k] else Nop
  {
    var drop := (From(0) - From(N_ATOMS)) - keep;
    forall k | 0 <= k < |ss| ensures ss[k] == if Needed(orig, k, keep) then orig[k] else Nop {
      assert LeftAt(orig, ss, drop, k);
    }
  }

  /** Equal states up to i, a statement dropped before i, and equal states again after i. */
  lemma {:induction false} FromStep(x: seq<Stmt>, y: seq<Stmt>, z: seq<Stmt>, i: nat)
    requires i < |x| == |y| == |z| && x[i..] == y[i..] && y[i..] == z[i..]
    requires Trimmed(x[..i], y[..i], From(0)) && Trimmed(y[..i+1], z[..i+1], From(0))
    ensures Trimmed(x[..i+1], z[..i+1], From(0)) && x[i+1..] == z[i+1..]
  {
    hide Trimmed;
    assert x[i] == x[i..][0] == y[i..][0] == y[i];
    TrimmedPush(x, y, i);
    TrimmedThen(x[..i+1], y[..i+1], z[..i+1], From(0), From(0), From(0));
    assert x[i+1..] == x[i..][1..] && z[i+1..] == z[i..][1..];
  }

  /** g' is g with some of the statements of each block dropped. */
  predicate Cleaned(n: Node, n': Node) { n' == n.(stmts := n'.stmts) }

  ghost predicate Swept(g: Graph, g': Graph, S: set<Id>, outUse: seq<set<Atom>>) {
    && |g| == |g'| == |outUse| && (forall b :: b in S ==> b < |g|)
    && forall b {:trigger g'[b]} :: b in S ==> b < |g| && Cleaned(g[b], g'[b]) && Trimmed(g[b].stmts, g'[b].stmts, outUse[b] + BranchUses(g[b].s))
  }

  lemma {:induction false} LandSwept(n: Node, n': Node, out: set<Atom>, x: State, y: State, p: Packet)
    requires Cleaned(n, n') && Trimmed(n.stmts, n'.stmts, out + BranchUses(n.s)) && Sealed(n)
    requires AgreeOn(LiveIn(n.stmts, n.s, out), x, y) && (n.s.RetA? ==> out == {})
    ensures match Land(n, x, p)
      case Done(o) => o != Fault ==> Land(n', y, p) == Done(o)
      case Next(side, x') => var l := Land(n', y, p); n.s.Jmp? && l.Next? && l.side == side && AgreeOn(out, x', l.st)
  {
    hide Exec, LiveIn, Sealed;
    LandAgrees(n, out, x, y, p);
    assert TrimmedAt(n.stmts, n'.stmts, out + BranchUses(n.s), y, p);
  }

  /** Dropping dead stores never changes the result of a run that does not fault. */
  lemma {:induction false} DeadStoresSafe(g: Graph, g': Graph, S: set<Id>, inUse: seq<set<Atom>>, outUse: seq<set<Atom>>, b: Id,
                                          x: State, y: State, p: Packet, fuel: nat)
    requires LiveSets(g, S, inUse, outUse) && ClosedUnder(g, S) && b in S && Closed(g')
    requires forall c :: c in S ==> Sealed(g[c])
    requires Swept(g, g', S, outUse) && AgreeOn(inUse[b], x, y)
    ensures Run(g, b, x, p, fuel) != Fault ==> Run(g', b, y, p, fuel) == Run(g, b, x, p, fuel)
    decreases fuel
  {
    hide Land, LiveIn, Sealed, Trimmed;
    if fuel != 0 {
      assert LiveAt(g, inUse, outUse, b);
      assert Cleaned(g[b], g'[b]);
      LandSwept(g[b], g'[b], outUse[b], x, y, p);
      var l := Land(g[b], x, p);
      if l.Next? {
        DeadStoresSafe(g, g', S, inUse, outUse, g[b].Succ(l.side), l.st, Land(g'[b], y, p).st, p, fuel - 1);
      }
    }
  }
}
