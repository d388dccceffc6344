/** Value numbers across blocks: inheritance at merge points, and one pass over the graph. */
module ValueFlow {
  import opened Bpf
  import opened Liveness
  import opened Values
  import opened Rewrites
  import opened Treatments
  import opened Numbering
  import DeadStores

  function SymExec(ss: seq<Stmt>, sym: Sym): Sym {
    if |ss| == 0 then sym else SymExec(ss[1..], SymStep(ss[0], sym))
  }

  lemma {:induction false} SymExecPush(ss: seq<Stmt>, s: Stmt, sym: Sym)
    ensures SymExec(ss + [s], sym) == SymStep(s, SymExec(ss, sym))
  {
    hide SymStep;
    if |ss| == 0 {
      assert ss + [s] == [s];
      assert [s][1..] == [];
    } else {
      assert (ss + [s])[1..] == ss[1..] + [s];
      SymExecPush(ss[1..], s, SymStep(ss[0], sym));
    }
  }

  /** Symbolic execution of a block follows the machine. */
  lemma {:induction false} SymExecSound(ss: seq<Stmt>, sym: Sym, st: State, p: Packet)
    requires Holds(sym, st, p) && Exec(ss, st, p).Some?
    ensures Holds(SymExec(ss, sym), Exec(ss, st, p).value, p)
  {
    hide Holds, Step, SymStep;
    if |ss| != 0 {
      SymStepSound(ss[0], sym, st, p);
      SymExecSound(ss[1..], SymStep(ss[0], sym), Step(ss[0], st, p).value, p);
    }
  }

  // The atoms a statement list reads before it sets them.
  function Exposed(ss: seq<Stmt>): set<Atom> { LiveIn(ss, RetK(0), {}) }

  predicate CarriesAt(ss: seq<Stmt>, ss2: seq<Stmt>, entry: Sym, exit: Sym, st: State, p: Packet) {
    Holds(entry, st, p) && Exec(ss, st, p).Some? ==>
      Exec(ss2, st, p) == Exec(ss, st, p) && Holds(exit, Exec(ss, st, p).value, p)
  }

  /** If what ss reads from outside is known, ss2 does the same wherever ss does not fault. */
  ghost predicate Carries(ss: seq<Stmt>, ss2: seq<Stmt>, entry: Sym, exit: Sym) {
    Firm(entry, Exposed(ss)) ==> forall st: State, p :: CarriesAt(ss, ss2, entry, exit, st, p)
  }

  /** The same for the first i statements, with what the rest needs known by then. */
  ghost predicate CarriesTo(ss: seq<Stmt>, i: nat, ss2: seq<Stmt>, entry: Sym, mid: Sym)
    requires i <= |ss|
  {
    Firm(entry, Exposed(ss)) ==>
      Firm(mid, Exposed(ss[i..])) && forall st: State, p :: CarriesAt(ss[..i], ss2, entry, mid, st, p)
  }

  lemma {:induction false} CarriesStart(ss: seq<Stmt>, entry: Sym)
    ensures CarriesTo(ss, 0, [], entry, entry)
  {
    assert ss[0..] == ss && ss[..0] == [];
  }

  lemma {:induction false} ExposedAt(ss: seq<Stmt>, i: nat)
    requires i < |ss|
    ensures Exposed(ss[i..]) == if ss[i].Nop? then Exposed(ss[i+1..]) else Uses(ss[i]) + (Exposed(ss[i+1..]) - {Def(ss[i])})
  {
    LiveSplit(ss, RetK(0), i, {});
  }

  lemma {:induction false} FirmNext(s: Stmt, rest: set<Atom>, sym: Sym, sym2: Sym)
    requires !s.Nop? && Firm(sym, Uses(s) + (rest - {Def(s)})) && Solid(sym2[Def(s)]) && sym2 == sym[Def(s) := sym2[Def(s)]]
    ensures Firm(sym, Uses(s)) && Firm(sym2, rest)
  {
    hide Uses, Def, Solid;
  }

  lemma {:induction false} CarriesNext(ss: seq<Stmt>, i: nat, ss2: seq<Stmt>, entry: Sym, mid: Sym, s2: Stmt, mid2: Sym)
    requires i < |ss| && CarriesTo(ss, i, ss2, entry, mid) && Rewritten(ss[i], s2, mid, mid2)
    ensures CarriesTo(ss, i + 1, ss2 + [s2], entry, mid2)
    ensures Firm(entry, Exposed(ss)) ==> Firm(mid, Uses(ss[i]))
  {
    hide Exposed, Holds, Firm, Step, Uses, Def, Solid;
    var s, out := ss[i], ss2 + [s2];
    if Firm(entry, Exposed(ss)) {
      ExposedAt(ss, i);
      if s.Nop? {
        NopFirm(mid);
      } else {
        FirmSubset(mid, Exposed(ss[i..]), Uses(s));
        FirmNext(s, Exposed(ss[i+1..]), mid, mid2);
      }
      assert ss[..i+1] == ss[..i] + [s];
      var pre := ss[..i+1];
      forall st: State, p ensures CarriesAt(pre, out, entry, mid2, st, p) {
        assert CarriesAt(ss[..i], ss2, entry, mid, st, p);
        ExecConcat(ss[..i], [s], st, p);
        ExecConcat(ss2, [s2], st, p);
        if Exec(ss[..i], st, p).Some? {
          var m := Exec(ss[..i], st, p).value;
          DeadStores.ExecOne(s, m, p);
          DeadStores.ExecOne(s2, m, p);
          assert RewrittenAt(s, s2, mid, mid2, m, p);
        }
      }
    }
  }

  lemma {:induction false} NopFirm(sym: Sym)
    ensures Firm(sym, Uses(Nop))
  {
  }

  lemma {:induction false} FirmSubset(sym: Sym, S: set<Atom>, T: set<Atom>)
    requires Firm(sym, S) && T <= S
    ensures Firm(sym, T)
  {
    hide Solid;
  }

  lemma {:induction false} LiveNext(ss: seq<Stmt>, i: nat)
    requires i < |ss|
    ensures |Live(ss[..i+1])| == |Live(ss[..i])| + (if ss[i].Nop? then 0 else 1)
    ensures |Live(ss[..i+1])| <= |Live(ss)|
  {
    assert ss[..i+1] == ss[..i] + [ss[i]];
    LiveConcat(ss[..i], [ss[i]]);
    assert ss == ss[..i+1] + ss[i+1..];
    LiveConcat(ss[..i+1], ss[i+1..]);
    assert [ss[i]][1..] == [];
  }

  lemma {:induction false} LiveConcat(x: seq<Stmt>, y: seq<Stmt>)
    ensures Live(x + y) == Live(x) + Live(y)
  {
    if |x| == 0 {
      assert x + y == y;
    } else {
      assert (x + y)[1..] == x[1..] + y;
      LiveConcat(x[1..], y);
    }
  }

  /** What a pass over one statement list has to show: numbers that describe what it computes,
      and, with alter, statements that still compute it. */
  ghost predicate Numbered(ss: seq<Stmt>, ss2: seq<Stmt>, entry: Sym, exit: Sym, alter: bool) {
    && Carries(ss, ss2, entry, exit)
    && (!alter ==> ss2 == ss && exit == SymExec(ss, entry))
  }

  /** Exactly what becomes of a list of statements and of the numbers of the atoms. */
  ghost predicate ExactlyAll(ss: seq<Stmt>, val: Vals, alter: bool, ss2: seq<Stmt>, val2: Vals, keys: seq<Key>)
    decreases |ss|
  {
    if |ss| == 0 then ss2 == [] && val2 == val
    else
      var plan := PlanFor(ss[0], val, alter, keys);
      var r := Carry(plan, ss[0], val, alter, keys);
      Served(plan, keys) && |ss2| > 0 && ss2[0] == r.0 && ExactlyAll(ss[1..], r.1, alter, ss2[1..], val2, keys)
  }

  lemma {:induction false} ExactlyNone(val: Vals, alter: bool, keys: seq<Key>)
    ensures ExactlyAll([], val, alter, [], val, keys)
  {
  }

  lemma {:induction false} ExactlyPush(ss: seq<Stmt>, val: Vals, alter: bool, ss2: seq<Stmt>, mid: Vals, keys: seq<Key>,
                                       s: Stmt, s2: Stmt, val2: Vals)
    requires ExactlyAll(ss, val, alter, ss2, mid, keys) && Exactly(s, mid, alter, s2, val2, keys)
    ensures ExactlyAll(ss + [s], val, alter, ss2 + [s2], val2, keys)
  {
    hide PlanFor, Carry, Served;
    if |ss| == 0 {
      assert ss + [s] == [s] && ss2 + [s2] == [s2];
      assert [s][1..] == [] && [s2][1..] == [];
      ExactlyNone(val2, alter, keys);
    } else {
      assert (ss + [s])[1..] == ss[1..] + [s] && (ss2 + [s2])[1..] == ss2[1..] + [s2];
      var r := Carry(PlanFor(ss[0], val, alter, keys), ss[0], val, alter, keys);
      ExactlyPush(ss[1..], r.1, alter, ss2[1..], mid, keys, s, s2, val2);
    }
  }

  lemma {:induction false} CarryIssued(s: Stmt, val: Vals, alter: bool, s2: Stmt, val2: Vals, keys: seq<Key>)
    requires Exactly(s, val, alter, s2, val2, keys) && Issued(val, |keys|)
    ensures Issued(val2, |keys|)
  {
    hide NumOf, ConstAt, Compute;
  }

  /** Numbers given out later do not change it. */
  lemma {:induction false} ExactlyAllGrows(ss: seq<Stmt>, val: Vals, alter: bool, ss2: seq<Stmt>, val2: Vals, keys: seq<Key>, keys2: seq<Key>)
    requires ExactlyAll(ss, val, alter, ss2, val2, keys) && Issued(val, |keys|) && keys <= keys2 && Distinct(keys2)
    ensures ExactlyAll(ss, val, alter, ss2, val2, keys2)
    decreases |ss|
  {
    hide PlanFor, Carry, Served, Distinct;
    if |ss| > 0 {
      var r := Carry(PlanFor(ss[0], val, alter, keys), ss[0], val, alter, keys);
      assert Exactly(ss[0], val, alter, r.0, r.1, keys);
      CarryIssued(ss[0], val, alter, r.0, r.1, keys);
      ExactlyGrows(ss[0], val, alter, r.0, r.1, keys, keys2);
      ExactlyAllGrows(ss[1..], r.1, alter, ss2[1..], val2, keys, keys2);
    }
  }

  /** If what ss reads from outside is known, it faults wherever it starts as entry says. */
  ghost predicate Doomed(ss: seq<Stmt>, entry: Sym) {
    Firm(entry, Exposed(ss)) ==> forall st: State, p :: Holds(entry, st, p) ==> Exec(ss, st, p).None?
  }

  /** Where numbering meets a division by zero the block is doomed. */
  lemma {:induction false} DividesDoomed(ss: seq<Stmt>, i: nat, ss2: seq<Stmt>, entry: Sym, mid: Sym)
    requires i < |ss| && CarriesTo(ss, i, ss2, entry, mid) && DividesByZero(ss[i], mid)
    ensures Doomed(ss, entry)
  {
    hide Exposed, Holds, Firm, Step;
    if Firm(entry, Exposed(ss)) {
      forall st: State, p | Holds(entry, st, p) ensures Exec(ss, st, p).None? {
        assert ss == ss[..i] + ss[i..];
        ExecConcat(ss[..i], ss[i..], st, p);
        if Exec(ss[..i], st, p).Some? {
          assert CarriesAt(ss[..i], ss2, entry, mid, st, p);
          DivisionFaults(ss[i], mid, Exec(ss[..i], st, p).value, p);
        }
      }
    }
  }

  lemma {:induction false} DivisionFaults(s: Stmt, sym: Sym, st: State, p: Packet)
    requires DividesByZero(s, sym) && Holds(sym, st, p)
    ensures Step(s, st, p).None?
  {
    assert TermHolds(sym[X_ATOM], st[X_ATOM], p);
  }

  /** Number the statements of one block in order. */
  method OptStmts(t: ValueTable, ss: seq<Stmt>, val: Vals, alter: bool) returns (ok: bool, ss2: seq<Stmt>, val2: Vals)
    requires t.Valid() && Issued(val, |t.den|) && t.curval + 2 * |Live(ss)| < |t.vmap|
    modifies t
    ensures t.Valid() && old(t.den) <= t.den && |t.vmap| == |old(t.vmap)| && t.curval <= old(t.curval) + 2 * |Live(ss)|
    ensures old(t.keys) <= t.keys && Distinct(t.keys)
    ensures !alter || NoDivision(ss) ==> ok
    ensures ok ==> Issued(val2, |t.den|) && Numbered(ss, ss2, SymOf(old(t.den), val), SymOf(t.den, val2), alter)
    ensures ok ==> ExactlyAll(ss, val, alter, ss2, val2, t.keys)
    ensures !ok ==> Doomed(ss, SymOf(old(t.den), val))
    ensures Whole(old(t.den)) && Firm(SymOf(old(t.den), val), Exposed(ss)) ==> Whole(t.den)
  {
    hide Doomed, Live, Exposed, CarriesTo, Carries, Rewritten, Firm, Whole, SymExec, Folded, SymOperand, Chained, Mapped, Denoted, Exactly, ExactlyAll,
         Distinct, Issued;
    ok, ss2, val2 := true, [], val;
    ghost var entry := SymOf(t.den, val);
    CarriesStart(ss, entry);
    SymExecNone(ss, entry);
    ExactlyNone(val, alter, t.keys);
    assert ss[..0] == [];
    KeysDistinct(t.hashtbl, t.keys);
    var i := 0;
    while i < |ss|
      invariant 0 <= i <= |ss| && t.Valid() && old(t.den) <= t.den && |t.vmap| == |old(t.vmap)|
      invariant t.curval <= old(t.curval) + 2 * |Live(ss[..i])|
      invariant Issued(val2, |t.den|) && CarriesTo(ss, i, ss2, entry, SymOf(t.den, val2))
      invariant !alter ==> ss2 == ss[..i] && SymOf(t.den, val2) == SymExec(ss[..i], entry)
      invariant Whole(old(t.den)) && Firm(entry, Exposed(ss)) ==> Whole(t.den)
      invariant old(t.keys) <= t.keys && Distinct(t.keys) && ExactlyAll(ss[..i], val, alter, ss2, val2, t.keys)
    {
      ghost var mid, den, keys := val2, t.den, t.keys;
      var s2;
      LiveNext(ss, i);
      ok, s2, val2 := t.OptStmt(ss[i], val2, alter);
      KeysDistinct(t.hashtbl, t.keys);
      if !ok {
        FirmHere(ss, i, ss2, entry, SymOf(den, mid));
        DividesDoomed(ss, i, ss2, entry, SymOf(den, mid));
        return;
      }
      CarriesNext(ss, i, ss2, entry, SymOf(den, mid), s2, SymOf(t.den, val2));
      IssuedMore(val, |old(t.den)|, |keys|);
      ExactlyAllGrows(ss[..i], val, alter, ss2, mid, keys, t.keys);
      ExactlyPush(ss[..i], val, alter, ss2, mid, t.keys, ss[i], s2, val2);
      SymExecPush(ss[..i], ss[i], entry);
      assert ss[..i+1] == ss[..i] + [ss[i]];
      ss2 := ss2 + [s2];
      i := i + 1;
    }
    assert ss[..i] == ss;
    CarriesEnd(ss, ss2, entry, SymOf(t.den, val2));
  }

  lemma {:induction false} IssuedMore(val: Vals, m: nat, n: nat)
    requires Issued(val, m) && m <= n
    ensures Issued(val, n)
  {
  }

  lemma {:induction false} SymExecNone(ss: seq<Stmt>, sym: Sym)
    ensures SymExec(ss[..0], sym) == sym && |Live(ss[..0])| == 0
  {
  }

  lemma {:induction false} CarriesEnd(ss: seq<Stmt>, ss2: seq<Stmt>, entry: Sym, exit: Sym)
    requires CarriesTo(ss, |ss|, ss2, entry, exit)
    ensures Carries(ss, ss2, entry, exit)
  {
    hide Exec, Holds, Firm, Exposed;
    assert ss[..|ss|] == ss;
  }

  lemma {:induction false} FirmHere(ss: seq<Stmt>, i: nat, ss2: seq<Stmt>, entry: Sym, mid: Sym)
    requires i < |ss| && CarriesTo(ss, i, ss2, entry, mid)
    ensures Firm(entry, Exposed(ss)) ==> Firm(mid, Uses(ss[i]))
  {
    hide Firm, Exposed, Uses;
    ExposedAt(ss, i);
    if Firm(entry, Exposed(ss)) {
      if ss[i].Nop? { NopFirm(mid); } else { FirmSubset(mid, Exposed(ss[i..]), Uses(ss[i])); }
    }
  }
}
