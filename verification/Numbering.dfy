/** The value-number table, and the numbering and rewriting of single statements. */
module Numbering {
  import opened Words
  import opened Bpf
  import opened Values
  import opened Treatments

  class ValueTable {
    var hashtbl: seq<seq<Valnode>>
    var curval: nat
    var vmap: seq<Option<Word>>
    ghost var keys: seq<Key>
    ghost var den: seq<Term>

    ghost predicate Valid()
      reads this
    {
      |keys| == |den| == curval + 1 <= |vmap| && Chained(hashtbl, keys) && Mapped(vmap, keys) && Denoted(den, keys)
    }

    /** Numbers handed out before keep their key and their meaning. */
    twostate predicate Grows()
      reads this
    {
      |vmap| == |old(vmap)| && old(keys) <= keys && old(den) <= den
    }

    constructor (maxval: nat)
      requires maxval > 0
      ensures Valid() && curval == 0 && |vmap| == maxval
    {
      hashtbl, curval, vmap := seq(MODULUS, _ => []), 0, seq(maxval, _ => None);
      keys, den := [Key(CImm, 0, 0)], [Unknown];
    }

    /** Forget all numbers: init_val. */
    method InitVal()
      requires |vmap| > 0
      modifies this
      ensures Valid() && curval == 0 && |vmap| == |old(vmap)| && den == [Unknown]
    {
      hashtbl, curval, vmap := seq(MODULUS, _ => []), 0, seq(|vmap|, _ => None);
      keys, den := [Key(CImm, 0, 0)], [Unknown];
    }

    /** The number of a key: the one it already has, or the next one. */
    method F(code: Code, v0: nat, v1: nat) returns (v: nat)
      requires Valid() && KeyBelow(Key(code, v0, v1), curval + 1) && curval + 1 < |vmap|
      modifies this
      ensures Valid() && Grows() && curval <= old(curval) + 1
      ensures 0 < v <= curval && keys[v] == Key(code, v0, v1) && den[v] == TermOf(Key(code, v0, v1), old(den))
      ensures NumOf(keys, Key(code, v0, v1)) == v
      ensures Whole(old(den)) && Solid(den[v]) ==> Whole(den)
    {
      hide Hash, Chained, Mapped, Denoted, TermOf, KeyBelow;
      var key := Key(code, v0, v1);
      v := Lookup(key);
      if v == 0 {
        v := Insert(key);
      } else {
        DenotedAt(den, keys, v);
      }
      KeysDistinct(hashtbl, keys);
      NumOfIs(keys, v);
    }

    /** The number a key already has, or 0. */
    method Lookup(key: Key) returns (v: nat)
      requires Valid()
      ensures v <= curval && if v > 0 then keys[v] == key else forall n :: 0 < n < |keys| ==> keys[n] != key
    {
      hide Hash, Mapped, Denoted;
      var h := Hash(key);
      var i := 0;
      while i < |hashtbl[h]|
        invariant 0 <= i <= |hashtbl[h]|
        invariant forall k :: 0 <= k < i ==> hashtbl[h][k].key != key
      {
        if hashtbl[h][i].key == key {
          return hashtbl[h][i].val;
        }
        i := i + 1;
      }
      NotFound(hashtbl, keys, key);
      v := 0;
    }

    method Insert(key: Key) returns (v: nat)
      requires Valid() && KeyBelow(key, curval + 1) && curval + 1 < |vmap| && forall n :: 0 < n < |keys| ==> keys[n] != key
      modifies this
      ensures Valid() && Grows() && curval == old(curval) + 1 == v && keys[v] == key && den[v] == TermOf(key, old(den))
      ensures den == old(den) + [den[v]]
    {
      hide Hash, Chained, Mapped, Denoted, TermOf;
      ChainedPush(hashtbl, keys, key);
      DenotedPush(den, keys, key);
      MappedPush(vmap, keys, key, curval + 1);
      curval := curval + 1;
      v := curval;
      if key.code.CImm? { vmap := vmap[v := Some(key.v0)]; }
      var h := Hash(key);
      hashtbl := hashtbl[h := [Valnode(key, v)] + hashtbl[h]];
      keys, den := keys + [key], den + [TermOf(key, den)];
    }

    /** The number of a constant. */
    method ConstNo(k: Word) returns (v: nat)
      requires Valid() && curval + 1 < |vmap|
      modifies this
      ensures Valid() && Grows() && curval <= old(curval) + 1 && 0 < v <= curval && den[v] == Const(k) && NumOf(keys, ConstKey(k)) == v
      ensures Whole(old(den)) ==> Whole(den)
    {
      v := F(CImm, k, 0);
    }

    /** Loads that read no atom. */
    method NumberLoad(s: Stmt, val: Vals, alter: bool) returns (s2: Stmt, val2: Vals)
      requires Valid() && Issued(val, |den|) && curval + 2 < |vmap|
      requires s.LdAbs? || s.LdLen? || s.LdImm? || s.LdxImm? || s.LdxMsh?
      modifies this
      ensures Valid() && Grows() && Treated(s, val, alter, s2, val2, old(den), den) && curval <= old(curval) + 2
      ensures Exactly(s, val, alter, s2, val2, keys)
      ensures Whole(old(den)) && Firm(SymOf(old(den), val), Uses(s)) ==> Whole(den)
    {
      hide Chained, Mapped, Denoted, Treated;
      var v;
      if s.LdAbs? {
        v := F(CAbs(s.size), s.off, 0);
      } else if s.LdLen? {
        v := F(CLen, 0, 0);
      } else if s.LdxMsh? {
        v := F(CMsh, s.off, 0);
      } else {
        v := ConstNo(s.k);
      }
      var r := Vstore(s, val, Def(s), v, alter);
      s2, val2 := r.0, r.1;
      TreatedLoad(s, val, alter, s2, val2, keys, old(den), den);
    }

    /** A load at X plus a constant. */
    method NumberInd(s: Stmt, val: Vals, alter: bool) returns (s2: Stmt, val2: Vals)
      requires Valid() && Issued(val, |den|) && curval + 2 < |vmap| && s.LdInd?
      modifies this
      ensures Valid() && Grows() && Treated(s, val, alter, s2, val2, old(den), den) && curval <= old(curval) + 2
      ensures Exactly(s, val, alter, s2, val2, keys)
      ensures Whole(old(den)) && Firm(SymOf(old(den), val), Uses(s)) ==> Whole(den)
    {
      hide Chained, Mapped, Denoted, Treated;
      var v := val[X_ATOM];
      var s1 := s;
      ghost var map0, keys0 := vmap, keys;
      if alter && vmap[v].Some? {
        s1 := LdAbs(s.size, Plus(s.off, vmap[v].value));
        v := F(CAbs(s1.size), s1.off, 0);
      } else {
        v := F(CInd(s.size), s.off, v);
      }
      ConstAtIs(map0, keys0, keys, val[X_ATOM]);
      var r := Vstore(s1, val, A_ATOM, v, alter);
      s2, val2 := r.0, r.1;
      TreatedInd(s, val, alter, s2, val2, keys, old(den), den);
    }

    /** Moves between atoms. */
    method NumberMove(s: Stmt, val: Vals, alter: bool) returns (s2: Stmt, val2: Vals)
      requires Valid() && Issued(val, |den|)
      requires s.LdMem? || s.LdxMem? || s.Tax? || s.Txa? || s.St? || s.Stx?
      modifies this
      ensures Valid() && Grows() && Treated(s, val, alter, s2, val2, old(den), den) && curval <= old(curval) + 2
      ensures Exactly(s, val, alter, s2, val2, keys)
      ensures Whole(old(den)) && Firm(SymOf(old(den), val), Uses(s)) ==> Whole(den)
    {
      hide Chained, Mapped, Denoted, Treated;
      var v, s1;
      match s {
        case LdMem(r) =>
          v, s1 := val[r], s;
          ConstAtIs(vmap, keys, keys, v);
          if alter && vmap[v].Some? { s1 := LdImm(vmap[v].value); }
        case LdxMem(r) =>
          v, s1 := val[r], s;
          ConstAtIs(vmap, keys, keys, v);
          if alter && vmap[v].Some? { s1 := LdxImm(vmap[v].value); }
        case Tax => v, s1 := val[A_ATOM], s;
        case Txa => v, s1 := val[X_ATOM], s;
        case St(_) => v, s1 := val[A_ATOM], s;
        case Stx(_) => v, s1 := val[X_ATOM], s;
      }
      var r := Vstore(s1, val, Def(s), v, alter);
      s2, val2 := r.0, r.1;
      TreatedMove(s, val, alter, s2, val2, keys, old(den), den);
    }

    method NumberNeg(val: Vals, alter: bool) returns (s2: Stmt, val2: Vals)
      requires Valid() && Issued(val, |den|) && curval + 2 < |vmap|
      modifies this
      ensures Valid() && Grows() && Treated(Neg, val, alter, s2, val2, old(den), den) && curval <= old(curval) + 2
      ensures Exactly(Neg, val, alter, s2, val2, keys)
      ensures Whole(old(den)) && Firm(SymOf(old(den), val), Uses(Neg)) ==> Whole(den)
    {
      hide Chained, Mapped, Denoted, Treated;
      var c := vmap[val[A_ATOM]];
      ghost var map0, keys0 := vmap, keys;
      var v;
      if alter && c.Some? {
        s2 := LdImm(Opposite(c.value));
        v := ConstNo(s2.k);
      } else {
        s2 := Neg;
        v := F(CNeg, val[A_ATOM], 0);
      }
      ConstAtIs(map0, keys0, keys, val[A_ATOM]);
      val2 := val[A_ATOM := v];
      TreatedNeg(val, alter, s2, val2, keys, old(den), den);
    }

    /** The immediate load that carries out an operation on two constants; None is a division by zero. */
    method FoldOp(op: AluOp, v0: nat, v1: nat) returns (r: Option<Stmt>)
      requires Valid() && v0 <= curval && v1 <= curval && den[v0].Const? && den[v1].Const?
      ensures r.None? <==> op == Div && den[v1].k == 0
      ensures r.Some? ==> r.value.LdImm? && Compute(op, den[v0].k, den[v1].k) == Some(r.value.k)
    {
      hide Chained, Mapped, Denoted, Compute;
      ConstNumber(vmap, keys, den, v0);
      ConstNumber(vmap, keys, den, v1);
      ComputeFails(op, den[v0].k, den[v1].k);
      var c := Compute(op, vmap[v0].value, vmap[v1].value);
      if c.None? { r := None; } else { r := Some(LdImm(c.value)); }
    }

    /** An operation with a constant; ok is false for a division by zero met while folding. */
    method NumberAluK(op: AluOp, k: Word, val: Vals, alter: bool) returns (ok: bool, s2: Stmt, val2: Vals)
      requires Valid() && Issued(val, |den|) && curval + 2 < |vmap|
      modifies this
      ensures Valid() && Grows() && curval <= old(curval) + 2
      ensures ok <==> !(alter && DividesByZero(Alu(op, Src.K(k)), SymOf(old(den), val)))
      ensures ok ==> Treated(Alu(op, Src.K(k)), val, alter, s2, val2, old(den), den)
      ensures ok ==> Exactly(Alu(op, Src.K(k)), val, alter, s2, val2, keys)
      ensures Whole(old(den)) && Firm(SymOf(old(den), val), {A_ATOM}) ==> Whole(den)
    {
      hide Chained, Mapped, Denoted, Treated, Compute;
      ok, s2, val2 := true, Alu(op, Src.K(k)), val;
      ghost var map0, keys0 := vmap, keys;
      ConstNumber(vmap, keys, den, val[A_ATOM]);
      if alter && k == 0 && op in {Add, Lsh, Rsh, Or} {
        s2 := Nop;
      } else if alter && k == 0 && op in {Mul, And} {
        s2 := LdImm(0);
        var v := ConstNo(0);
        val2 := val[A_ATOM := v];
      } else if alter && vmap[val[A_ATOM]].Some? {
        var c := ConstNo(k);
        var r := FoldOp(op, val[A_ATOM], c);
        if r.None? { ok := false; return; }
        s2 := r.value;
        var v := ConstNo(s2.k);
        val2 := val[A_ATOM := v];
      } else {
        val2 := NumberOp(op, k, val);
      }
      ConstAtIs(map0, keys0, keys, val[A_ATOM]);
      TreatedAluK(op, k, val, alter, s2, val2, keys, old(den), den);
    }

    /** The number of an operation with a constant. */
    method NumberOp(op: AluOp, k: Word, val: Vals) returns (val2: Vals)
      requires Valid() && Issued(val, |den|) && curval + 2 < |vmap|
      modifies this
      ensures Valid() && Grows() && curval <= old(curval) + 2
      ensures var n := NumOf(keys, ConstKey(k)); var key := Key(CAlu(op, false), val[A_ATOM], n);
        n > 0 && NumOf(keys, key) > 0 && val2 == val[A_ATOM := NumOf(keys, key)]
      ensures Whole(old(den)) && Firm(SymOf(old(den), val), {A_ATOM}) ==> Whole(den)
    {
      hide Chained, Mapped, Denoted;
      var c := ConstNo(k);
      ghost var keys0 := keys;
      var v := F(CAlu(op, false), val[A_ATOM], c);
      val2 := val[A_ATOM := v];
      KeysDistinct(hashtbl, keys);
      NumOfGrows(keys0, keys, ConstKey(k));
    }

    /** An operation with an X that is constant. */
    method FoldAluX(op: AluOp, val: Vals) returns (ok: bool, s2: Stmt, val2: Vals)
      requires Valid() && Issued(val, |den|) && curval + 2 < |vmap| && vmap[val[X_ATOM]].Some?
      modifies this
      ensures Valid() && Grows() && curval <= old(curval) + 2
      ensures ok <==> !(DividesByZero(Alu(op, X), SymOf(old(den), val)))
      ensures ok ==> Treated(Alu(op, X), val, true, s2, val2, old(den), den)
      ensures ok ==> Exactly(Alu(op, X), val, true, s2, val2, keys)
      ensures Whole(old(den)) && Firm(SymOf(old(den), val), {A_ATOM, X_ATOM}) ==> Whole(den)
    {
      hide Chained, Mapped, Denoted, Treated, Compute;
      ok, s2, val2 := true, Alu(op, X), val;
      ghost var map0, keys0 := vmap, keys;
      ConstNumber(vmap, keys, den, val[A_ATOM]);
      ConstNumber(vmap, keys, den, val[X_ATOM]);
      if vmap[val[A_ATOM]].Some? {
        var r := FoldOp(op, val[A_ATOM], val[X_ATOM]);
        if r.None? { ok := false; return; }
        s2 := r.value;
        var v := ConstNo(s2.k);
        val2 := val[A_ATOM := v];
      } else {
        s2 := Alu(op, Src.K(vmap[val[X_ATOM]].value));
        val2 := NumberOp(op, s2.src.k, val);
      }
      ConstAtIs(map0, keys0, keys, val[A_ATOM]);
      ConstAtIs(map0, keys0, keys, val[X_ATOM]);
      TreatedAluX(op, val, true, s2, val2, keys, old(den), den);
    }

    /** An operation other than a subtraction on an accumulator that is 0. */
    method ZeroAluX(op: AluOp, val: Vals) returns (s2: Stmt, val2: Vals)
      requires Valid() && Issued(val, |den|) && curval + 2 < |vmap|
      requires vmap[val[X_ATOM]].None? && vmap[val[A_ATOM]] == Some(0) && op != Sub
      modifies this
      ensures Valid() && Grows() && curval <= old(curval) + 2
      ensures Treated(Alu(op, X), val, true, s2, val2, old(den), den)
      ensures Exactly(Alu(op, X), val, true, s2, val2, keys)
      ensures Whole(old(den)) ==> Whole(den)
    {
      hide Chained, Mapped, Denoted, Treated;
      ghost var map0, keys0 := vmap, keys;
      var v;
      if op == Add || op == Or {
        s2, v := Txa, val[X_ATOM];
      } else {
        s2 := LdImm(0);
        v := ConstNo(0);
      }
      ConstAtIs(map0, keys0, keys, val[A_ATOM]);
      ConstAtIs(map0, keys0, keys, val[X_ATOM]);
      var r := Vstore(s2, val, A_ATOM, v, true);
      s2, val2 := r.0, r.1;
      TreatedAluX(op, val, true, s2, val2, keys, old(den), den);
    }

    /** An operation with X. */
    method NumberAluX(op: AluOp, val: Vals, alter: bool) returns (ok: bool, s2: Stmt, val2: Vals)
      requires Valid() && Issued(val, |den|) && curval + 2 < |vmap|
      modifies this
      ensures Valid() && Grows() && curval <= old(curval) + 2
      ensures ok <==> !(alter && DividesByZero(Alu(op, X), SymOf(old(den), val)))
      ensures ok ==> Treated(Alu(op, X), val, alter, s2, val2, old(den), den)
      ensures ok ==> Exactly(Alu(op, X), val, alter, s2, val2, keys)
      ensures Whole(old(den)) && Firm(SymOf(old(den), val), {A_ATOM, X_ATOM}) ==> Whole(den)
    {
      hide Chained, Mapped, Denoted, Treated;
      ok, s2, val2 := true, Alu(op, X), val;
      ghost var map0, keys0 := vmap, keys;
      ConstNumber(vmap, keys, den, val[A_ATOM]);
      ConstNumber(vmap, keys, den, val[X_ATOM]);
      if alter && vmap[val[X_ATOM]].Some? {
        ok, s2, val2 := FoldAluX(op, val);
      } else if alter && vmap[val[A_ATOM]] == Some(0) && op != Sub {
        s2, val2 := ZeroAluX(op, val);
      } else {
        var v := F(CAlu(op, true), val[A_ATOM], val[X_ATOM]);
        val2 := val[A_ATOM := v];
        ConstAtIs(map0, keys0, keys, val[A_ATOM]);
        ConstAtIs(map0, keys0, keys, val[X_ATOM]);
        TreatedAluX(op, val, alter, s2, val2, keys, old(den), den);
      }
    }

    /** Number one statement and, if alter, simplify it. Without alter the numbers stand for
        exactly the symbolic values; with alter the statement may change but not what it does. */
    method OptStmt(s: Stmt, val: Vals, alter: bool) returns (ok: bool, s2: Stmt, val2: Vals)
      requires Valid() && Issued(val, |den|) && (!s.Nop? ==> curval + 2 < |vmap|)
      modifies this
      ensures Valid() && Grows() && curval <= old(curval) + (if s.Nop? then 0 else 2)
      ensures ok <==> !(alter && DividesByZero(s, SymOf(old(den), val)))
      ensures ok ==> Treated(s, val, alter, s2, val2, old(den), den)
      ensures ok ==> Exactly(s, val, alter, s2, val2, keys)
      ensures Whole(old(den)) && Firm(SymOf(old(den), val), Uses(s)) ==> Whole(den)
    {
      hide Chained, Mapped, Denoted, Treated, PlanAluK, PlanAluX;
      ok := true;
      if s.Nop? {
        s2, val2 := s, val;
        NopTreated(val, alter, den);
      } else if s.Alu? && s.src.K? {
        ok, s2, val2 := NumberAluK(s.op, s.src.k, val, alter);
      } else if s.Alu? {
        ok, s2, val2 := NumberAluX(s.op, val, alter);
      } else if s.Neg? {
        s2, val2 := NumberNeg(val, alter);
      } else if s.LdInd? {
        s2, val2 := NumberInd(s, val, alter);
      } else if s.LdMem? || s.LdxMem? || s.Tax? || s.Txa? || s.St? || s.Stx? {
        s2, val2 := NumberMove(s, val, alter);
      } else {
        s2, val2 := NumberLoad(s, val, alter);
      }
    }
  }

  lemma {:induction false} KeysDistinct(hashtbl: seq<seq<Valnode>>, keys: seq<Key>)
    requires Chained(hashtbl, keys)
    ensures Distinct(keys)
  {
  }

  lemma {:induction false} NotFound(hashtbl: seq<seq<Valnode>>, keys: seq<Key>, key: Key)
    requires Chained(hashtbl, keys) && forall i :: 0 <= i < |hashtbl[Hash(key)]| ==> hashtbl[Hash(key)][i].key != key
    ensures forall n :: 0 < n < |keys| ==> keys[n] != key
  {
  }
}
