/** Compiling arithmetic: each operation leaves its value in a scratch register. */
module Arith {
  import opened Words
  import opened Bpf
  import opened Filters
  import opened Regs
  import opened Liveness

  // A compiled expression: its statements, the register of the result, the checks to make first.
  datatype Arth = Arth(checks: seq<Check>, s: seq<Stmt>, regno: Reg)

  /** Running s from any state faults exactly when v is None, and otherwise leaves the value in
      M[r] and the registers of keep alone. */
  ghost predicate Yields(s: seq<Stmt>, r: Reg, v: Option<Word>, keep: set<nat>, p: Packet) {
    forall st: State :: YieldsFrom(s, r, v, keep, p, st)
  }

  predicate YieldsFrom(s: seq<Stmt>, r: Reg, v: Option<Word>, keep: set<nat>, p: Packet, st: State) {
    var e := Exec(s, st, p);
    match v
    case None => e.None?
    case Some(x) => e.Some? && e.value[r] == x && forall k :: k in keep && k < BPF_MEMWORDS ==> e.value[k] == st[k]
  }

  lemma {:induction false} ExecCons(a: Stmt, rest: seq<Stmt>, st: State, p: Packet)
    ensures Exec([a] + rest, st, p)
         == match Step(a, st, p) case None => None case Some(st') => Exec(rest, st', p)
  {
    assert ([a] + rest)[1..] == rest;
  }

  lemma {:induction false} Exec3(a: Stmt, b: Stmt, c: Stmt, st: State, p: Packet)
    ensures Exec([a, b, c], st, p)
         == match Step(a, st, p)
            case None => None
            case Some(s1) => match Step(b, s1, p) case None => None case Some(s2) => Step(c, s2, p)
  {
    hide Value;
    assert [a, b, c] == [a] + [b, c] && [b, c] == [b] + [c] && [c] == [c] + [];
    ExecCons(a, [b, c], st, p);
    match Step(a, st, p) {
      case None =>
      case Some(s1) =>
        ExecCons(b, [c], s1, p);
        match Step(b, s1, p) {
          case None =>
          case Some(s2) => ExecCons(c, [], s2, p);
        }
    }
  }

  lemma {:induction false} YieldsLoad(s: seq<Stmt>, i: Reg, v: Option<Word>, keep: set<nat>, p: Packet,
                                      size: Size, off: Word, r: Reg, w: Option<Word>)
    requires Yields(s, i, v, keep, p) && r !in keep
    requires w == if v.Some? then Load(p, Plus(v.value, off), size) else None
    ensures Yields(s + [LdxMem(i), LdInd(size, off)] + [St(r)], r, w, keep, p)
  {
    hide Load, Exec, Step, Plus;
    var code := [LdxMem(i), LdInd(size, off), St(r)];
    assert s + [LdxMem(i), LdInd(size, off)] + [St(r)] == s + code;
    forall st: State ensures YieldsFrom(s + code, r, w, keep, p, st) {
      assert YieldsFrom(s, i, v, keep, p, st);
      ExecConcat(s, code, st, p);
      if v.Some? { LoadSteps(i, v.value, size, off, r, Exec(s, st, p).value, p); }
    }
  }

  lemma {:induction false} LoadSteps(i: Reg, x: Word, size: Size, off: Word, r: Reg, st: State, p: Packet)
    requires st[i] == x
    ensures Exec([LdxMem(i), LdInd(size, off), St(r)], st, p)
         == match Load(p, Plus(x, off), size)
            case None => None
            case Some(y) => Some(st[X_ATOM := x][A_ATOM := y][r := y])
  {
    hide Load, Compute, Msh, Plus;
    Exec3(LdxMem(i), LdInd(size, off), St(r), st, p);
    var s1 := st[X_ATOM := x];
    assert Step(LdxMem(i), st, p) == Some(s1);
    assert Value(LdInd(size, off), s1, p) == Load(p, Plus(x, off), size);
  }

  // The statements that load at the index in M[i], but for the last.
  function LoadStmts(layer: Layer, i: Reg, size: Size): seq<Stmt> {
    match layer
    case Frame => [LdxMem(i), LdInd(size, 0)]
    case Payload(_) => [LdxMem(i), LdInd(size, OFF_MACPL + OFF_NL)]
    case Transport(_) => [LdxMsh(OFF_MACPL + OFF_NL), LdMem(i), Alu(Add, X), Tax, LdInd(size, OFF_MACPL + OFF_NL)]
  }

  /** X is the header length, A the index: their sum goes to X, and the load is relative to it. */
  lemma {:induction false} TransportSteps(i: Reg, x: Word, proto: Word, size: Size, r: Reg, st: State, p: Packet)
    requires st[i] == x
    ensures var e := Exec(LoadStmts(Transport(proto), i, size) + [St(r)], st, p);
      match LoadIn(Transport(proto), x, size, p)
      case None => e.None?
      case Some(y) => e.Some? && e.value[r] == y && forall k :: 0 <= k < BPF_MEMWORDS && k != r ==> e.value[k] == st[k]
  {
    hide Load, Plus, Band, Shl, Value;
    var off := OFF_MACPL + OFF_NL;
    var last := [Tax, LdInd(size, off), St(r)];
    assert LoadStmts(Transport(proto), i, size) + [St(r)] == [LdxMsh(off)] + ([LdMem(i)] + ([Alu(Add, X)] + last));
    ExecCons(LdxMsh(off), [LdMem(i)] + ([Alu(Add, X)] + last), st, p);
    HeaderStep(st, p);
    match HeaderLength(p) {
      case None =>
      case Some(n) =>
        var s1: State := st[X_ATOM := n];
        var s2: State := s1[A_ATOM := x];
        var s3: State := s2[A_ATOM := Plus(x, n)];
        IndexSum(i, s1, p);
        ExecCons(LdMem(i), [Alu(Add, X)] + last, s1, p);
        ExecCons(Alu(Add, X), last, s2, p);
        Exec3(Tax, LdInd(size, off), St(r), s3, p);
        MoveLoadStore(size, off, r, s3, p);
    }
  }

  lemma {:induction false} HeaderStep(st: State, p: Packet)
    ensures Step(LdxMsh(OFF_MACPL + OFF_NL), st, p) == match HeaderLength(p) case None => None case Some(n) => Some(st[X_ATOM := n])
  {
    hide Load, Band, Shl;
    var b := Load(p, OFF_MACPL + OFF_NL, B);
    if b.Some? { NibbleTimesFour(b.value); }
  }

  lemma {:induction false} IndexSum(i: Reg, st: State, p: Packet)
    ensures Step(LdMem(i), st, p) == Some(st[A_ATOM := st[i]])
    ensures Step(Alu(Add, X), st[A_ATOM := st[i]], p) == Some(st[A_ATOM := st[i]][A_ATOM := Plus(st[i], st[X_ATOM])])
  {
    hide Plus;
  }

  lemma {:induction false} MoveLoadStore(size: Size, off: Word, r: Reg, st: State, p: Packet)
    ensures var x: State := st[X_ATOM := st[A_ATOM]];
      && Step(Tax, st, p) == Some(x)
      && match Load(p, Plus(st[A_ATOM], off), size)
         case None => Step(LdInd(size, off), x, p) == None
         case Some(y) => Step(LdInd(size, off), x, p) == Some(x[A_ATOM := y]) && Step(St(r), x[A_ATOM := y], p) == Some(x[A_ATOM := y][r := y])
  {
    hide Load, Plus;
  }

  lemma {:induction false} YieldsTransport(s: seq<Stmt>, i: Reg, v: Option<Word>, keep: set<nat>, p: Packet,
                                           proto: Word, size: Size, r: Reg, w: Option<Word>)
    requires Yields(s, i, v, keep, p) && r !in keep
    requires w == if v.Some? then LoadIn(Transport(proto), v.value, size, p) else None
    ensures Yields(s + LoadStmts(Transport(proto), i, size) + [St(r)], r, w, keep, p)
  {
    hide Exec, LoadStmts, LoadIn;
    var code := LoadStmts(Transport(proto), i, size) + [St(r)];
    assert s + LoadStmts(Transport(proto), i, size) + [St(r)] == s + code;
    forall st: State ensures YieldsFrom(s + code, r, w, keep, p, st) {
      assert YieldsFrom(s, i, v, keep, p, st);
      ExecConcat(s, code, st, p);
      if v.Some? { TransportSteps(i, v.value, proto, size, r, Exec(s, st, p).value, p); }
    }
  }

  /** Whatever the layer, the load leaves its value in M[r]. */
  lemma {:induction false} YieldsAt(s: seq<Stmt>, i: Reg, v: Option<Word>, keep: set<nat>, p: Packet, layer: Layer, size: Size, r: Reg)
    requires Yields(s, i, v, keep, p) && r !in keep
    ensures var w := if v.Some? then LoadIn(layer, v.value, size, p) else None;
      Yields(s + LoadStmts(layer, i, size) + [St(r)], r, w, keep, p)
  {
    hide Yields;
    var w := if v.Some? then LoadIn(layer, v.value, size, p) else None;
    match layer
    case Frame => YieldsLoad(s, i, v, keep, p, size, 0, r, w);
    case Payload(_) => YieldsLoad(s, i, v, keep, p, size, OFF_MACPL + OFF_NL, r, w);
    case Transport(proto) => YieldsTransport(s, i, v, keep, p, proto, size, r, w);
  }

  lemma {:induction false} YieldsNeg(s: seq<Stmt>, r: Reg, v: Option<Word>, keep: set<nat>, p: Packet, w: Option<Word>)
    requires Yields(s, r, v, keep, p) && r !in keep
    requires w == if v.Some? then Some(Opposite(v.value)) else None
    ensures Yields(s + [LdMem(r)] + [Neg] + [St(r)], r, w, keep, p)
  {
    var code := [LdMem(r), Neg, St(r)];
    assert s + [LdMem(r)] + [Neg] + [St(r)] == s + code;
    forall st: State ensures YieldsFrom(s + code, r, w, keep, p, st) {
      assert YieldsFrom(s, r, v, keep, p, st);
      ExecConcat(s, code, st, p);
      if v.Some? { Exec3(LdMem(r), Neg, St(r), Exec(s, st, p).value, p); }
    }
  }

  lemma {:induction false} YieldsConst(b: Stmt, r: Reg, keep: set<nat>, p: Packet, w: Option<Word>)
    requires r !in keep && (b == LdLen || b.LdImm?) && w == (if b.LdImm? then Some(b.k) else Some(p.wirelen))
    ensures Yields([b] + [St(r)], r, w, keep, p)
  {
    forall st: State ensures YieldsFrom([b] + [St(r)], r, w, keep, p, st) {
      ExecCons(b, [St(r)], st, p);
      assert [St(r)] == [St(r)] + [];
      ExecCons(St(r), [], st[A_ATOM := w.value], p);
    }
  }

  /** The left value stays in its register while the right one is computed. */
  lemma {:induction false} YieldsPair(s0: seq<Stmt>, r0: Reg, x: Option<Word>, s1: seq<Stmt>, r1: Reg, y: Option<Word>,
                                      keep: set<nat>, p: Packet, st: State)
    requires Yields(s0, r0, x, keep, p) && Yields(s1, r1, y, keep + {r0}, p)
    ensures var e := Exec(s0 + s1, st, p);
      if x.None? || y.None? then e.None?
      else
        && e.Some? && e.value[r0] == x.value && e.value[r1] == y.value
        && forall k :: k in keep && k < BPF_MEMWORDS ==> e.value[k] == st[k]
  {
    ExecConcat(s0, s1, st, p);
    assert YieldsFrom(s0, r0, x, keep, p, st);
    if x.Some? {
      assert YieldsFrom(s1, r1, y, keep + {r0}, p, Exec(s0, st, p).value);
    }
  }

  lemma {:induction false} YieldsBinary(s0: seq<Stmt>, r0: Reg, x: Option<Word>, s1: seq<Stmt>, r1: Reg, y: Option<Word>,
                                        keep: set<nat>, p: Packet, op: AluOp, r: Reg, w: Option<Word>)
    requires Yields(s0, r0, x, keep, p) && Yields(s1, r1, y, keep + {r0}, p) && r !in keep
    requires w == if x.Some? && y.Some? then Compute(op, x.value, y.value) else None
    ensures Yields(s0 + s1 + [LdxMem(r1), LdMem(r0), Alu(op, X)] + [St(r)], r, w, keep, p)
  {
    hide Compute;
    var code := s0 + s1 + [LdxMem(r1), LdMem(r0), Alu(op, X)] + [St(r)];
    forall st: State ensures YieldsFrom(code, r, w, keep, p, st) {
      YieldsPair(s0, r0, x, s1, r1, y, keep, p, st);
      assert code == (s0 + s1) + ([LdxMem(r1), LdMem(r0), Alu(op, X)] + [St(r)]);
      ExecConcat(s0 + s1, [LdxMem(r1), LdMem(r0), Alu(op, X)] + [St(r)], st, p);
      if x.Some? && y.Some? {
        var mid := Exec(s0 + s1, st, p).value;
        ExecConcat([LdxMem(r1), LdMem(r0), Alu(op, X)], [St(r)], mid, p);
        Exec3(LdxMem(r1), LdMem(r0), Alu(op, X), mid, p);
        if w.Some? { ExecCons(St(r), [], mid[X_ATOM := y.value][A_ATOM := w.value], p); assert [St(r)] + [] == [St(r)]; }
      }
    }
  }

  /** s needs nothing from outside to set M[r]. */
  predicate Owns(s: seq<Stmt>, r: Reg) { LiveIn(s, RetK(0), {r}) == {} }

  lemma {:induction false} LiveTwo(a: Stmt, b: Stmt, out: set<Atom>)
    requires !a.Nop? && !b.Nop?
    ensures LiveIn([a, b], RetK(0), out) == Uses(a) + ((Uses(b) + (out - {Def(b)})) - {Def(a)})
  {
    hide Uses, Def;
    assert [a, b][1..] == [b] && [b][1..] == [];
    assert LiveIn([], RetK(0), out) == out;
  }

  lemma {:induction false} OwnsConst(b: Stmt, r: Reg)
    requires b == LdLen || b.LdImm?
    ensures Owns([b] + [St(r)], r)
  {
    LiveTwo(b, St(r), {r});
    assert [b] + [St(r)] == [b, St(r)];
  }

  /** Statements that need M[i] after others that set it. */
  lemma {:induction false} OwnsThen(s: seq<Stmt>, i: Reg, t: seq<Stmt>, r: Reg)
    requires Owns(s, i) && LiveIn(t, RetK(0), {r}) <= {i}
    ensures Owns(s + t, r)
  {
    LiveInConcat(s, t, RetK(0), {r});
    LiveMore(s, LiveIn(t, RetK(0), {r}), {i});
  }

  lemma {:induction false} OwnsLoad(s: seq<Stmt>, i: Reg, size: Size, off: Word, r: Reg)
    requires Owns(s, i)
    ensures Owns(s + [LdxMem(i), LdInd(size, off)] + [St(r)], r)
  {
    var t := [LdxMem(i), LdInd(size, off)] + [St(r)];
    LiveInConcat([LdxMem(i), LdInd(size, off)], [St(r)], RetK(0), {r});
    LiveTwo(LdxMem(i), LdInd(size, off), LiveIn([St(r)], RetK(0), {r}));
    assert [St(r)][1..] == [];
    OwnsThen(s, i, t, r);
    assert s + t == s + [LdxMem(i), LdInd(size, off)] + [St(r)];
  }

  lemma {:induction false} OwnsAt(s: seq<Stmt>, i: Reg, layer: Layer, size: Size, r: Reg)
    requires Owns(s, i)
    ensures Owns(s + LoadStmts(layer, i, size) + [St(r)], r)
  {
    hide LiveIn;
    match layer
    case Frame => OwnsLoad(s, i, size, 0, r);
    case Payload(_) => OwnsLoad(s, i, size, OFF_MACPL + OFF_NL, r);
    case Transport(proto) =>
      var t := LoadStmts(layer, i, size) + [St(r)];
      OwnsTransport(i, size, r);
      OwnsThen(s, i, t, r);
      assert s + t == s + LoadStmts(layer, i, size) + [St(r)];
  }

  lemma {:induction false} OwnsTransport(i: Reg, size: Size, r: Reg)
    ensures LiveIn(LoadStmts(Transport(0), i, size) + [St(r)], RetK(0), {r}) == {i}
  {
    hide LiveIn;
    var off := OFF_MACPL + OFF_NL;
    var a, b, c := [LdxMsh(off), LdMem(i)], [Alu(Add, X), Tax], [LdInd(size, off), St(r)];
    LiveTwo(LdInd(size, off), St(r), {r});
    LiveTwo(Alu(Add, X), Tax, LiveIn(c, RetK(0), {r}));
    LiveTwo(LdxMsh(off), LdMem(i), LiveIn(b, RetK(0), LiveIn(c, RetK(0), {r})));
    LiveInConcat(b, c, RetK(0), {r});
    LiveInConcat(a, b + c, RetK(0), {r});
    assert LoadStmts(Transport(0), i, size) + [St(r)] == a + (b + c);
  }

  lemma {:induction false} OwnsNeg(s: seq<Stmt>, r: Reg)
    requires Owns(s, r)
    ensures Owns(s + [LdMem(r)] + [Neg] + [St(r)], r)
  {
    var t := [LdMem(r)] + [Neg, St(r)];
    LiveInConcat([LdMem(r)], [Neg, St(r)], RetK(0), {r});
    LiveTwo(Neg, St(r), {r});
    assert [LdMem(r)][1..] == [];
    OwnsThen(s, r, t, r);
    assert s + t == s + [LdMem(r)] + [Neg] + [St(r)];
  }

  /** Both operands set, then a tail that reads both registers. */
  lemma {:induction false} OwnsPair(s0: seq<Stmt>, r0: Reg, s1: seq<Stmt>, r1: Reg, t: seq<Stmt>, out: set<Atom>)
    requires Owns(s0, r0) && Owns(s1, r1) && LiveIn(t, RetK(0), out) <= {r0, r1}
    ensures LiveIn(s0 + s1 + t, RetK(0), out) == {}
  {
    var need := LiveIn(t, RetK(0), out);
    assert s0 + s1 + t == s0 + (s1 + t);
    LiveInConcat(s1, t, RetK(0), out);
    LiveInConcat(s0, s1 + t, RetK(0), out);
    LiveMore(s1, need, {r1} + {r0});
    LiveExtra(s1, {r1}, {r0});
    LiveMore(s0, LiveIn(s1, RetK(0), need), {r0});
  }

  lemma {:induction false} OwnsBinary(s0: seq<Stmt>, r0: Reg, s1: seq<Stmt>, r1: Reg, op: AluOp, r: Reg)
    requires Owns(s0, r0) && Owns(s1, r1)
    ensures Owns(s0 + s1 + [LdxMem(r1), LdMem(r0), Alu(op, X)] + [St(r)], r)
  {
    var t := [LdxMem(r1), LdMem(r0)] + [Alu(op, X), St(r)];
    LiveInConcat([LdxMem(r1), LdMem(r0)], [Alu(op, X), St(r)], RetK(0), {r});
    LiveTwo(Alu(op, X), St(r), {r});
    LiveTwo(LdxMem(r1), LdMem(r0), LiveIn([Alu(op, X), St(r)], RetK(0), {r}));
    OwnsPair(s0, r0, s1, r1, t, {r});
    assert s0 + s1 + t == s0 + s1 + [LdxMem(r1), LdMem(r0), Alu(op, X)] + [St(r)];
  }

  /** Loads without constants after others, and a store. */
  lemma {:induction false} TameThen(s: seq<Stmt>, t: seq<Stmt>, r: Reg, divides: bool)
    requires Tame(s, divides) && (divides || NoDivision(t)) && forall i {:trigger t[i]} :: 0 <= i < |t| ==> !t[i].LdImm?
    ensures Tame(s + t + [St(r)], divides)
  {
    hide Tame;
    assert Tame(t, divides) && Tame([St(r)], divides) by { TameParts(t, r, divides); }
    TameConcat(s, t, divides);
    TameConcat(s + t, [St(r)], divides);
  }

  lemma {:induction false} TameParts(t: seq<Stmt>, r: Reg, divides: bool)
    requires (divides || NoDivision(t)) && forall i {:trigger t[i]} :: 0 <= i < |t| ==> !t[i].LdImm?
    ensures Tame(t, divides) && Tame([St(r)], divides)
  {
  }

  lemma {:induction false} TameBinary(s0: seq<Stmt>, r0: Reg, s1: seq<Stmt>, r1: Reg, op: AluOp, r: Reg, x: Expr, y: Expr)
    requires Tame(s0, Divides(x)) && Tame(s1, Divides(y))
    ensures Tame(s0 + s1 + [LdxMem(r1), LdMem(r0), Alu(op, X)] + [St(r)], Divides(Bin(op, x, y)))
  {
    var divides := Divides(Bin(op, x, y));
    TameConcat(s0, s1, divides);
    TameThen(s0 + s1, [LdxMem(r1), LdMem(r0), Alu(op, X)], r, divides);
  }

  /** a computes the value v of some expression, given that the registers of keep are spoken for. */
  ghost predicate Computes(a: Arth, e: Expr, keep: set<nat>) {
    && a.regno !in keep && a.checks == Guards(e) && Owns(a.s, a.regno) && Tame(a.s, Divides(e))
    && forall p: Packet :: Yields(a.s, a.regno, Val(e, p), keep, p)
  }

  method GenLoadi(k: Word, regs: Registers) returns (ok: bool, a: Arth)
    requires regs.Valid()
    modifies regs`curreg, regs.regused
    ensures regs.Valid() && (ok <==> old(regs.Used()) != ALL)
    ensures ok ==> Computes(a, Num(k), old(regs.Used())) && regs.Used() == old(regs.Used()) + {a.regno}
  {
    var r;
    ok, r := regs.AllocReg();
    if !ok { return false, Arth([], [], 0); }
    a := Arth([], [LdImm(k)] + [St(r)], r);
    OwnsConst(LdImm(k), r);
    forall p: Packet ensures Yields(a.s, r, Some(k), old(regs.Used()), p) {
      YieldsConst(LdImm(k), r, old(regs.Used()), p, Some(k));
    }
  }

  method GenLoadLen(regs: Registers) returns (ok: bool, a: Arth)
    requires regs.Valid()
    modifies regs`curreg, regs.regused
    ensures regs.Valid() && (ok <==> old(regs.Used()) != ALL)
    ensures ok ==> Computes(a, Len, old(regs.Used())) && regs.Used() == old(regs.Used()) + {a.regno}
  {
    var r;
    ok, r := regs.AllocReg();
    if !ok { return false, Arth([], [], 0); }
    a := Arth([], [LdLen] + [St(r)], r);
    OwnsConst(LdLen, r);
    forall p: Packet ensures Yields(a.s, r, Some(p.wirelen), old(regs.Used()), p) {
      YieldsConst(LdLen, r, old(regs.Used()), p, Some(p.wirelen));
    }
  }

  method GenLoad(layer: Layer, inst: Arth, size: Size, regs: Registers, ghost e: Expr, ghost keep: set<nat>)
    returns (ok: bool, a: Arth)
    requires regs.Valid() && Computes(inst, e, keep) && regs.Used() == keep + {inst.regno}
    modifies regs`curreg, regs.regused
    ensures regs.Valid() && (ok <==> old(regs.Used()) != ALL)
    ensures ok ==> Computes(a, At(layer, e, size), keep) && regs.Used() == keep + {a.regno}
  {
    var regno;
    ok, regno := regs.AllocReg();
    if !ok { return false, inst; }
    regs.FreeReg(inst.regno);
    a := Arth(ChecksOf(layer, inst.checks), inst.s + LoadStmts(layer, inst.regno, size) + [St(regno)], regno);
    OwnsAt(inst.s, inst.regno, layer, size, regno);
    TameThen(inst.s, LoadStmts(layer, inst.regno, size), regno, Divides(e));
    forall p: Packet ensures Yields(a.s, regno, Val(At(layer, e, size), p), keep, p) {
      YieldsAt(inst.s, inst.regno, Val(e, p), keep, p, layer, size, regno);
    }
    assert regs.Used() == keep + {regno};
  }

  method GenNeg(b: Arth, ghost e: Expr, ghost keep: set<nat>) returns (a: Arth)
    requires Computes(b, e, keep)
    ensures Computes(a, Minus(e), keep) && a.regno == b.regno
  {
    a := b.(s := b.s + [LdMem(b.regno)] + [Neg] + [St(b.regno)]);
    OwnsNeg(b.s, b.regno);
    TameThen(b.s, [LdMem(b.regno), Neg], b.regno, Divides(e));
    assert a.s == b.s + [LdMem(b.regno), Neg] + [St(b.regno)];
    forall p: Packet ensures Yields(a.s, a.regno, Val(Minus(e), p), keep, p) {
      YieldsNeg(b.s, b.regno, Val(e, p), keep, p, Val(Minus(e), p));
    }
  }

  method GenArth(op: AluOp, a0: Arth, a1: Arth, regs: Registers, ghost l: Expr, ghost r: Expr, ghost keep: set<nat>)
    returns (ok: bool, a: Arth)
    requires regs.Valid() && Computes(a0, l, keep) && Computes(a1, r, keep + {a0.regno})
    requires regs.Used() == keep + {a0.regno} + {a1.regno}
    modifies regs`curreg, regs.regused
    ensures regs.Valid() && ok
    ensures Computes(a, Bin(op, l, r), keep) && regs.Used() == keep + {a.regno}
  {
    hide Tame, Divides, Yields, Owns;
    var s := a0.s + a1.s + [LdxMem(a1.regno), LdMem(a0.regno), Alu(op, X)];
    regs.FreeReg(a0.regno);
    regs.FreeReg(a1.regno);
    assert regs.Used() == keep && a0.regno in ALL;
    var regno;
    ok, regno := regs.AllocReg();
    a := Arth(a0.checks, s + [St(regno)], regno);
    OwnsBinary(a0.s, a0.regno, a1.s, a1.regno, op, regno);
    TameBinary(a0.s, a0.regno, a1.s, a1.regno, op, regno, l, r);
    forall p: Packet ensures Yields(a.s, regno, Val(Bin(op, l, r), p), keep, p) {
      YieldsBinary(a0.s, a0.regno, Val(l, p), a1.s, a1.regno, Val(r, p), keep, p, op, regno, Val(Bin(op, l, r), p));
    }
  }

  ghost function UpTo(n: nat): (u: set<nat>)
    ensures forall r :: r in u <==> 0 <= r < n
    ensures |u| == n
  {
    if n == 0 then {} else UpTo(n - 1) + {n - 1}
  }

  lemma {:induction false} AllCard()
    ensures |ALL| == BPF_MEMWORDS
  {
    var n := BPF_MEMWORDS;
    assert ALL == UpTo(n);
  }

  lemma {:induction false} SubsetCard(u: set<nat>, v: set<nat>)
    requires u <= v
    ensures |u| <= |v| && (|u| == |v| <==> u == v)
  {
    if u != v {
      var x :| x in v && x !in u;
      SubsetCard(u, v - {x});
    }
  }

  /** The parser's actions for an expression: fails exactly when it needs more registers than are free. */
  method GenExpr(e: Expr, regs: Registers) returns (ok: bool, a: Arth)
    requires regs.Valid()
    modifies regs`curreg, regs.regused
    ensures regs.Valid()
    ensures ok <==> |old(regs.Used())| + Need(e) <= BPF_MEMWORDS
    ensures ok ==> Computes(a, e, old(regs.Used())) && regs.Used() == old(regs.Used()) + {a.regno}
    decreases e
  {
    ghost var keep := regs.Used();
    AllCard();
    assert keep <= ALL;
    SubsetCard(keep, ALL);
    a := Arth([], [], 0);
    match e
    case Num(k) => ok, a := GenLoadi(k, regs);
    case Len => ok, a := GenLoadLen(regs);
    case At(layer, i, size) =>
      ok, a := GenExpr(i, regs);
      if ok {
        assert regs.Used() <= ALL;
        SubsetCard(regs.Used(), ALL);
        ok, a := GenLoad(layer, a, size, regs, i, keep);
      }
    case Minus(x) =>
      ok, a := GenExpr(x, regs);
      if ok { a := GenNeg(a, x, keep); }
    case Bin(op, l, r) =>
      ok, a := GenExpr(l, regs);
      if ok {
        var b;
        ok, b := GenExpr(r, regs);
        if ok { ok, a := GenArth(op, a, b, regs, l, r, keep); }
      }
  }
}
