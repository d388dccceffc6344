/** Blocks whose faults show in the value they leave in A: where that value can be had, the block does not fault. */
module ShownFaults {
  import opened Words
  import opened Bpf
  import opened Values
  import opened ValueFlow

  predicate MayFault(s: Stmt) { s.LdAbs? || s.LdInd? || s.LdxMsh? || (s.Alu? && s.op == Div) }

  /** The atoms before ss that the values of T after ss depend on. */
  function Feeds(ss: seq<Stmt>, T: set<Atom>): set<Atom> {
    if |ss| == 0 then T
    else
      var R := Feeds(ss[1..], T);
      if !ss[0].Nop? && Def(ss[0]) in R then Uses(ss[0]) + (R - {Def(ss[0])}) else R
  }

  /** What may fault feeds an atom of T. */
  predicate FaultsFeed(ss: seq<Stmt>, T: set<Atom>) {
    |ss| == 0 || (FaultsFeed(ss[1..], T) && (MayFault(ss[0]) ==> Def(ss[0]) in Feeds(ss[1..], T)))
  }

  lemma {:induction false} UnsolidNone(t: Term, p: Packet)
    requires !Solid(t)
    ensures Eval(t, p) == None
  {
    match t
    case IndLoad(_, _, x) => UnsolidNone(x, p);
    case Apply(_, l, r) => if Solid(l) { UnsolidNone(r, p); } else { UnsolidNone(l, p); }
    case Negated(u) => UnsolidNone(u, p);
    case _ =>
  }

  /** A value that cannot be had makes what is computed from it one. */
  lemma {:induction false} UsesStrict(s: Stmt, sym: Sym, p: Packet, t: Atom)
    requires !s.Nop? && t in Uses(s) && Eval(sym[t], p) == None
    ensures Eval(SymValue(s, sym), p) == None
  {
    hide Compute;
  }

  lemma {:induction false} FeedsStrict(ss: seq<Stmt>, T: set<Atom>, sym: Sym, p: Packet, t: Atom) returns (a: Atom)
    requires t in Feeds(ss, T) && Eval(sym[t], p) == None
    ensures a in T && Eval(SymExec(ss, sym)[a], p) == None
  {
    hide SymValue, Def, Uses, Eval;
    if |ss| == 0 {
      a := t;
    } else {
      var R := Feeds(ss[1..], T);
      if ss[0].Nop? || Def(ss[0]) !in R || t in R - {Def(ss[0])} {
        a := FeedsStrict(ss[1..], T, SymStep(ss[0], sym), p, t);
      } else {
        UsesStrict(ss[0], sym, p, t);
        a := FeedsStrict(ss[1..], T, SymStep(ss[0], sym), p, Def(ss[0]));
      }
    }
  }

  lemma {:induction false} AtomNone(sym: Sym, st: State, p: Packet, a: Atom)
    requires Holds(sym, st, p)
    ensures Eval(sym[a], p) == None || Eval(sym[a], p) == Some(st[a])
  {
    assert TermHolds(sym[a], st[a], p);
    if !Solid(sym[a]) { UnsolidNone(sym[a], p); }
  }

  /** A statement that faults leaves no value. */
  lemma {:induction false} StepNone(s: Stmt, sym: Sym, st: State, p: Packet)
    requires Holds(sym, st, p) && Step(s, st, p).None?
    ensures !s.Nop? && MayFault(s) && Eval(SymValue(s, sym), p) == None
  {
    hide Holds, Load, Plus;
    AtomNone(sym, st, p, A_ATOM);
    AtomNone(sym, st, p, X_ATOM);
  }

  /** If a block faults and what may fault feeds T, some atom of T has no value. */
  lemma {:induction false} FaultShows(ss: seq<Stmt>, T: set<Atom>, sym: Sym, st: State, p: Packet) returns (a: Atom)
    requires Holds(sym, st, p) && FaultsFeed(ss, T) && Exec(ss, st, p).None?
    ensures a in T && Eval(SymExec(ss, sym)[a], p) == None
  {
    hide Holds, Step, SymValue, Def, Uses, Eval, MayFault;
    if Step(ss[0], st, p).None? {
      StepNone(ss[0], sym, st, p);
      StepSets(ss[0], sym);
      a := FeedsStrict(ss[1..], T, SymStep(ss[0], sym), p, Def(ss[0]));
    } else {
      SymStepSound(ss[0], sym, st, p);
      a := FaultShows(ss[1..], T, SymStep(ss[0], sym), Step(ss[0], st, p).value, p);
    }
  }

  lemma {:induction false} StepSets(s: Stmt, sym: Sym)
    requires !s.Nop?
    ensures SymStep(s, sym)[Def(s)] == SymValue(s, sym)
  {
  }
}
