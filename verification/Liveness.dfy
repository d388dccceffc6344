/** Which atoms a block still needs: local use and kill sets, and their propagation up the levels. */
module Liveness {
  import opened Words
  import opened Bpf
  import opened Blocks
  import opened Reach
  import opened Levels
  import Dominators

  /** The atoms the last statement of a block reads. */
  function BranchUses(br: Branch): set<Atom> {
    match br
    case Jmp(_, src) => if src.X? then {A_ATOM, X_ATOM} else {A_ATOM}
    case RetA => {A_ATOM}
    case RetK(_) => {}
  }

  // What the analysis counts as read: the uses of returns are left out.
  function CountedUses(br: Branch): set<Atom> { if br.Jmp? then BranchUses(br) else {} }

  /** The atoms live before ss when those of out are live after the block: read backwards. */
  function LiveIn(ss: seq<Stmt>, br: Branch, out: set<Atom>): set<Atom> {
    if |ss| == 0 then out + CountedUses(br)
    else if ss[0].Nop? then LiveIn(ss[1..], br, out)
    else Uses(ss[0]) + (LiveIn(ss[1..], br, out) - {Def(ss[0])})
  }

  /** The atoms a block reads, its last statement included, before setting them. */
  function NodeReads(n: Node): set<Atom> { LiveIn(n.stmts, RetK(0), BranchUses(n.s)) }

  /** The block sets all it reads. */
  predicate SelfContained(n: Node) { NodeReads(n) == {} }

  lemma {:induction false} LiveMore(ss: seq<Stmt>, x: set<Atom>, y: set<Atom>)
    requires x <= y
    ensures LiveIn(ss, RetK(0), x) <= LiveIn(ss, RetK(0), y)
  {
    if |ss| != 0 { LiveMore(ss[1..], x, y); }
  }

  lemma {:induction false} LiveInConcat(s: seq<Stmt>, t: seq<Stmt>, br: Branch, out: set<Atom>)
    ensures LiveIn(s + t, br, out) == LiveIn(s, RetK(0), LiveIn(t, br, out))
  {
    if |s| == 0 {
      assert s + t == t;
    } else {
      assert (s + t)[1..] == s[1..] + t;
      LiveInConcat(s[1..], t, br, out);
    }
  }

  lemma {:induction false} LiveExtra(ss: seq<Stmt>, out: set<Atom>, more: set<Atom>)
    ensures LiveIn(ss, RetK(0), out + more) <= LiveIn(ss, RetK(0), out) + more
  {
    if |ss| != 0 { LiveExtra(ss[1..], out, more); }
  }

  predicate AgreeOn(S: set<Atom>, x: State, y: State) {
    forall a {:trigger a in S} {:trigger x[a]} {:trigger y[a]} :: a in S ==> x[a] == y[a]
  }

  lemma {:induction false} AgreeLess(S: set<Atom>, T: set<Atom>, x: State, y: State)
    requires AgreeOn(T, x, y) && S <= T
    ensures AgreeOn(S, x, y)
  {
  }

  lemma {:induction false} SameSide(br: Branch, x: State, y: State)
    requires br.Jmp? && AgreeOn(CountedUses(br), x, y)
    ensures Taken(br, x) == Taken(br, y)
  {
  }

  /** States that agree on what a statement reads give it the same value. */
  lemma {:induction false} ValueAgrees(s: Stmt, x: State, y: State, p: Packet)
    requires !s.Nop? && AgreeOn(Uses(s), x, y)
    ensures Value(s, x, p) == Value(s, y, p)
  {
    match s
    case Alu(_, _) => assert A_ATOM in Uses(s);
    case LdInd(_, _) => assert X_ATOM in Uses(s);
    case LdMem(r) => assert r in Uses(s);
    case LdxMem(r) => assert r in Uses(s);
    case St(_) => assert A_ATOM in Uses(s);
    case Stx(_) => assert X_ATOM in Uses(s);
    case Neg => assert A_ATOM in Uses(s);
    case Tax => assert A_ATOM in Uses(s);
    case Txa => assert X_ATOM in Uses(s);
    case _ =>
  }

  predicate BothEnd(S: set<Atom>, x: Option<State>, y: Option<State>) {
    match x case None => y.None? case Some(x') => y.Some? && AgreeOn(S, x', y.value)
  }

  lemma {:induction false} StepAgrees(s: Stmt, S: set<Atom>, x: State, y: State, p: Packet)
    requires !s.Nop? && AgreeOn(Uses(s), x, y) && AgreeOn(S - {Def(s)}, x, y)
    ensures BothEnd(S, Step(s, x, p), Step(s, y, p))
  {
    hide Value, Uses;
    ValueAgrees(s, x, y, p);
  }

  /** Agreement on the live atoms survives the statements, faults included. */
  lemma {:induction false} ExecAgrees(ss: seq<Stmt>, br: Branch, out: set<Atom>, x: State, y: State, p: Packet)
    requires AgreeOn(LiveIn(ss, br, out), x, y)
    ensures BothEnd(out + CountedUses(br), Exec(ss, x, p), Exec(ss, y, p))
  {
    hide Uses, Step;
    if |ss| != 0 {
      if ss[0].Nop? {
        NopSteps(x, p);
        NopSteps(y, p);
        ExecAgrees(ss[1..], br, out, x, y, p);
      } else {
        StepAgrees(ss[0], LiveIn(ss[1..], br, out), x, y, p);
        if Step(ss[0], x, p).Some? {
          ExecAgrees(ss[1..], br, out, Step(ss[0], x, p).value, Step(ss[0], y, p).value, p);
        }
      }
    }
  }

  lemma {:induction false} NopSteps(x: State, p: Packet)
    ensures Step(Nop, x, p) == Some(x)
  {
  }

  /** Liveness of one block follows from that of its successors. */
  predicate LiveAt(g: Graph, inUse: seq<set<Atom>>, outUse: seq<set<Atom>>, b: Id)
    requires Closed(g) && b < |g| == |inUse| == |outUse|
  {
    && outUse[b] == (if g[b].s.Jmp? then inUse[g[b].jt] + inUse[g[b].jf] else {})
    && inUse[b] == LiveIn(g[b].stmts, g[b].s, outUse[b])
  }

  predicate LiveSets(g: Graph, S: set<Id>, inUse: seq<set<Atom>>, outUse: seq<set<Atom>>) {
    && Closed(g) && |g| == |inUse| == |outUse|
    && forall b {:trigger LiveAt(g, inUse, outUse, b)} :: b in S ==> b < |g| && LiveAt(g, inUse, outUse, b)
  }

  /** The atoms live before block b. */
  ghost function LiveBefore(g: Graph, lv: Blocks.Levels, b: Id): set<Atom>
    requires Leveled(g, lv) && b < |g|
    decreases lv[b]
  {
    LiveIn(g[b].stmts, g[b].s, LiveBehind(g, lv, b))
  }

  ghost function LiveBehind(g: Graph, lv: Blocks.Levels, b: Id): set<Atom>
    requires Leveled(g, lv) && b < |g|
    decreases lv[b], 0
  {
    if g[b].s.Jmp? then LiveBefore(g, lv, g[b].jt) + LiveBefore(g, lv, g[b].jf) else {}
  }

  /** There are live sets, even of a graph nobody has computed them for. */
  lemma {:induction false} LiveSetsExist(g: Graph, lv: Blocks.Levels, S: set<Id>) returns (inUse: seq<set<Atom>>, outUse: seq<set<Atom>>)
    requires Leveled(g, lv) && ClosedUnder(g, S)
    ensures LiveSets(g, S, inUse, outUse)
  {
    hide LiveIn;
    inUse := seq(|g|, b requires 0 <= b < |g| => LiveBefore(g, lv, b));
    outUse := seq(|g|, b requires 0 <= b < |g| => LiveBehind(g, lv, b));
  }

  /** And no others: live sets are what is live before and behind a block. */
  lemma {:induction false} LiveIs(g: Graph, lv: Blocks.Levels, S: set<Id>, inUse: seq<set<Atom>>, outUse: seq<set<Atom>>, b: Id)
    requires Leveled(g, lv) && ClosedUnder(g, S) && LiveSets(g, S, inUse, outUse) && b in S
    ensures b < |g| && inUse[b] == LiveBefore(g, lv, b) && outUse[b] == LiveBehind(g, lv, b)
    decreases if b < |lv| then lv[b] else 0
  {
    hide LiveIn;
    assert LiveAt(g, inUse, outUse, b) && SuccSet(g, b) <= S;
    if g[b].s.Jmp? {
      LiveIs(g, lv, S, inUse, outUse, g[b].jt);
      LiveIs(g, lv, S, inUse, outUse, g[b].jf);
    }
  }

  predicate TouchesA(s: Stmt) { !s.Nop? && (Def(s) == A_ATOM || A_ATOM in Uses(s)) }

  predicate Touched(ss: seq<Stmt>) { exists i :: 0 <= i < |ss| && TouchesA(ss[i]) }

  /** The block reads or writes A before returning it, or does not return it. */
  predicate Sealed(n: Node) { n.s.RetA? ==> Touched(n.stmts) }

  /** In a sealed return block, agreement on the live atoms makes the returned accumulators equal. */
  lemma {:induction false} SealedReturns(ss: seq<Stmt>, x: State, y: State, p: Packet)
    requires Touched(ss) && AgreeOn(LiveIn(ss, RetA, {}), x, y)
    ensures BothEnd({A_ATOM}, Exec(ss, x, p), Exec(ss, y, p))
  {
    hide Uses, Step;
    var i :| 0 <= i < |ss| && TouchesA(ss[i]);
    if ss[0].Nop? {
      NopSteps(x, p);
      NopSteps(y, p);
      assert ss[1..][i-1] == ss[i];
      SealedReturns(ss[1..], x, y, p);
    } else if TouchesA(ss[0]) && AgreeOn({A_ATOM} - {Def(ss[0])}, x, y) {
      StepAgrees(ss[0], LiveIn(ss[1..], RetA, {A_ATOM}), x, y, p) by { LiveAlso(ss[1..], {A_ATOM}); }
      if Step(ss[0], x, p).Some? {
        ExecAgrees(ss[1..], RetA, {A_ATOM}, Step(ss[0], x, p).value, Step(ss[0], y, p).value, p);
      }
    } else {
      assert !TouchesA(ss[0]);
      assert ss[1..][i-1] == ss[i];
      StepAgrees(ss[0], LiveIn(ss[1..], RetA, {}), x, y, p);
      if Step(ss[0], x, p).Some? {
        SealedReturns(ss[1..], Step(ss[0], x, p).value, Step(ss[0], y, p).value, p);
      }
    }
  }

  lemma {:induction false} LiveAlso(ss: seq<Stmt>, out: set<Atom>)
    ensures LiveIn(ss, RetA, out) <= LiveIn(ss, RetA, {}) + out
  {
    if |ss| != 0 { LiveAlso(ss[1..], out); }
  }

  lemma {:induction false} LandAgrees(n: Node, out: set<Atom>, x: State, y: State, p: Packet)
    requires Sealed(n) && AgreeOn(LiveIn(n.stmts, n.s, out), x, y) && (n.s.RetA? ==> out == {})
    ensures match Land(n, x, p)
      case Done(o) => Land(n, y, p) == Done(o)
      case Next(side, x') => var l := Land(n, y, p); n.s.Jmp? && l.Next? && l.side == side && AgreeOn(out, x', l.st)
  {
    hide Exec, LiveIn;
    ExecAgrees(n.stmts, n.s, out, x, y, p);
    if n.s.RetA? { SealedReturns(n.stmts, x, y, p); }
  }

  /** Two states that agree on what is live on entry to a block finish the run alike. */
  lemma {:induction false} LivenessSound(g: Graph, S: set<Id>, inUse: seq<set<Atom>>, outUse: seq<set<Atom>>, b: Id,
                                         x: State, y: State, p: Packet, fuel: nat)
    requires LiveSets(g, S, inUse, outUse) && ClosedUnder(g, S) && b in S
    requires forall c :: c in S ==> Sealed(g[c])
    requires AgreeOn(inUse[b], x, y)
    ensures Run(g, b, x, p, fuel) == Run(g, b, y, p, fuel)
    decreases fuel
  {
    hide Land, LiveIn, Sealed;
    if fuel != 0 {
      assert LiveAt(g, inUse, outUse, b);
      LandAgrees(g[b], outUse[b], x, y, p);
      var l := Land(g[b], x, p);
      if l.Next? {
        LivenessSound(g, S, inUse, outUse, g[b].Succ(l.side), l.st, Land(g[b], y, p).st, p, fuel - 1);
      }
    }
  }

  // A packet long enough for every load at a fixed offset.
  function LongPacket(): Packet { Packet(seq(M + 4, _ => 0), 0) }

  /** Statements that do not touch A leave it alone, and on a long packet they do not fault. */
  lemma {:induction false} UntouchedKeepsA(ss: seq<Stmt>, x: State)
    requires !Touched(ss)
    ensures Exec(ss, x, LongPacket()).Some? && Exec(ss, x, LongPacket()).value[A_ATOM] == x[A_ATOM]
  {
    if |ss| != 0 {
      assert !TouchesA(ss[0]);
      forall i | 0 <= i < |ss[1..]| ensures !TouchesA(ss[1..][i]) {
        assert ss[1..][i] == ss[i+1];
      }
      StepLong(ss[0], x);
      UntouchedKeepsA(ss[1..], Step(ss[0], x, LongPacket()).value);
    }
  }

  lemma {:induction false} StepLong(s: Stmt, x: State)
    requires !TouchesA(s)
    ensures Step(s, x, LongPacket()).Some? && Step(s, x, LongPacket()).value[A_ATOM] == x[A_ATOM]
  {
  }

  ghost predicate SameLandings(n: Node, S: set<Atom>) {
    forall x: State, y: State, p :: AgreeOn(S, x, y) ==> Land(n, x, p) == Land(n, y, p)
  }

  /** The live set of a returning block decides its outcome exactly when the block is sealed:
      the use of A by the return itself is not counted. */
  lemma {:induction false} ReturnLiveness(n: Node)
    requires !n.s.Jmp?
    ensures Sealed(n) <==> SameLandings(n, LiveIn(n.stmts, n.s, {}))
  {
    var S := LiveIn(n.stmts, n.s, {});
    if Sealed(n) {
      forall x: State, y: State, p | AgreeOn(S, x, y) ensures Land(n, x, p) == Land(n, y, p) {
        LandAgrees(n, {}, x, y, p);
      }
    } else {
      UntouchedNotLive(n.stmts);
      var x: State, y: State := seq(N_ATOMS, _ => 0), seq(N_ATOMS, i => if i == A_ATOM then 1 else 0);
      UntouchedKeepsA(n.stmts, x);
      UntouchedKeepsA(n.stmts, y);
      assert Land(n, x, LongPacket()) != Land(n, y, LongPacket());
    }
  }

  lemma {:induction false} UntouchedNotLive(ss: seq<Stmt>)
    requires !Touched(ss)
    ensures A_ATOM !in LiveIn(ss, RetA, {})
  {
    if |ss| != 0 {
      assert !TouchesA(ss[0]);
      forall i | 0 <= i < |ss[1..]| ensures !TouchesA(ss[1..][i]) {
        assert ss[1..][i] == ss[i+1];
      }
      UntouchedNotLive(ss[1..]);
    }
  }

  /** What the scan over the first i statements knows: the rest decides through use and def. */
  ghost predicate Scanned(ss: seq<Stmt>, br: Branch, i: nat, use: set<Atom>, def: set<Atom>)
    requires i <= |ss|
  {
    forall out :: ScannedAt(ss, br, i, use, def, out)
  }

  predicate ScannedAt(ss: seq<Stmt>, br: Branch, i: nat, use: set<Atom>, def: set<Atom>, out: set<Atom>)
    requires i <= |ss|
  {
    LiveIn(ss, br, out) == use + (LiveIn(ss[i..], br, out) - def)
  }

  lemma {:induction false} LiveSplit(ss: seq<Stmt>, br: Branch, i: nat, out: set<Atom>)
    requires i < |ss|
    ensures LiveIn(ss[i..], br, out) == if ss[i].Nop? then LiveIn(ss[i+1..], br, out)
                                        else Uses(ss[i]) + (LiveIn(ss[i+1..], br, out) - {Def(ss[i])})
  {
    hide Uses;
    assert ss[i..][1..] == ss[i+1..];
  }

  lemma {:induction false} ScanStep(ss: seq<Stmt>, br: Branch, i: nat, use: set<Atom>, def: set<Atom>, use': set<Atom>, def': set<Atom>)
    requires i < |ss| && Scanned(ss, br, i, use, def)
    requires if ss[i].Nop? then use' == use && def' == def else use' == use + (Uses(ss[i]) - def) && def' == def + {Def(ss[i])}
    ensures Scanned(ss, br, i + 1, use', def')
  {
    hide LiveIn, Uses;
    var k := i + 1;
    forall out ensures ScannedAt(ss, br, k, use', def', out) {
      assert ScannedAt(ss, br, i, use, def, out);
      LiveSplit(ss, br, i, out);
    }
  }

  /** The local sets of a block determine its live-in set for every live-out set. */
  ghost predicate LocalSets(n: Node, use: set<Atom>, kill: set<Atom>) {
    forall out :: LocalSetsAt(n, use, kill, out)
  }

  predicate LocalSetsAt(n: Node, use: set<Atom>, kill: set<Atom>, out: set<Atom>) {
    use + (out - kill) == LiveIn(n.stmts, n.s, out)
  }

  method ComputeLocalUd(n: Node) returns (use: set<Atom>, kill: set<Atom>)
    ensures LocalSets(n, use, kill)
  {
    hide LiveIn;
    var def: set<Atom> := {};
    use, kill := {}, {};
    var i := 0;
    assert Scanned(n.stmts, n.s, 0, {}, {}) by {
      forall out ensures ScannedAt(n.stmts, n.s, 0, {}, {}, out) {
        assert n.stmts[0..] == n.stmts;
      }
    }
    while i < |n.stmts|
      invariant 0 <= i <= |n.stmts| && kill == def - use
      invariant Scanned(n.stmts, n.s, i, use, def)
    {
      var s := n.stmts[i];
      ghost var use0, def0 := use, def;
      if !s.Nop? {
        use := use + (Uses(s) - def);
        if Def(s) !in use { kill := kill + {Def(s)}; }
        def := def + {Def(s)};
      }
      ScanStep(n.stmts, n.s, i, use0, def0, use, def);
      i := i + 1;
    }
    ghost var before := use;
    if n.s.Jmp? { use := use + (BranchUses(n.s) - def); }
    ScanEnd(n, before, use, def, kill);
  }

  lemma {:induction false} ScanEnd(n: Node, before: set<Atom>, use: set<Atom>, def: set<Atom>, kill: set<Atom>)
    requires Scanned(n.stmts, n.s, |n.stmts|, before, def) && use == before + (CountedUses(n.s) - def) && kill == def - before
    ensures LocalSets(n, use, kill)
  {
    forall out ensures LocalSetsAt(n, use, kill, out) {
      assert ScannedAt(n.stmts, n.s, |n.stmts|, before, def, out);
    }
  }

  // The reachable blocks visited before the j-th one of level i, bottom level first.
  function Under(reach: set<Id>, level: seq<nat>, levels: seq<seq<Id>>, i: nat, j: nat): set<Id>
    requires forall b :: b in reach ==> b < |level|
    requires i < |levels| ==> j <= |levels[i]|
  {
    set b | b in reach && (level[b] < i || (i < |levels| && b in levels[i][..j]))
  }

  /** Successors are visited before the block itself. */
  lemma {:induction false} UnderNext(g: Graph, reach: set<Id>, level: seq<nat>, levels: seq<seq<Id>>, i: nat, j: nat)
    requires Leveling(g, reach, level, levels) && ClosedUnder(g, reach) && i < |g| && j < |levels[i]|
    ensures var b := levels[i][j];
      && b in reach && b < |g| && b !in Under(reach, level, levels, i, j) && (g[b].s.Jmp? <==> i > 0)
      && SuccSet(g, b) <= Under(reach, level, levels, i, j) && ClosedUnder(g, Under(reach, level, levels, i, j))
      && Under(reach, level, levels, i, j + 1) == Under(reach, level, levels, i, j) + {b}
  {
    var b := levels[i][j];
    assert OnLevel(levels, level, reach, i, b);
    assert LevelAt(g, level, b);
    assert levels[i][..j+1] == levels[i][..j] + [b];
    forall m, c | m in reach && c in SuccSet(g, m) && level[m] <= i ensures c in reach && level[c] < i {
      LevelDescends(g, reach, level, levels, m, c);
    }
    forall c | c in Under(reach, level, levels, i, j) ensures level[c] <= i {
      assert OnLevel(levels, level, reach, i, c);
    }
  }

  lemma {:induction false} UnderDrop(g: Graph, reach: set<Id>, level: seq<nat>, levels: seq<seq<Id>>, i: nat)
    requires Leveling(g, reach, level, levels) && i < |g|
    ensures Under(reach, level, levels, i, |levels[i]|) == Under(reach, level, levels, i + 1, 0)
  {
    forall b | b in reach ensures b in levels[i] <==> level[b] == i {
      assert OnLevel(levels, level, reach, i, b);
    }
    assert levels[i][..|levels[i]|] == levels[i];
  }

  /** Blocks below level 1 are the leaves; blocks up to the root's level are all there are. */
  lemma {:induction false} UnderEnds(g: Graph, root: Id, reach: set<Id>, level: seq<nat>, levels: seq<seq<Id>>)
    requires Leveling(g, reach, level, levels) && IsReach(g, root, reach)
    ensures root < |g| == |level| == |levels| && level[root] < |g| && ClosedUnder(g, reach)
    ensures forall b :: b in reach ==> b < |g|
    ensures Under(reach, level, levels, level[root] + 1, 0) == reach
    ensures forall b :: b in Under(reach, level, levels, 1, 0) <==> b in reach && b < |g| && !g[b].s.Jmp?
  {
    Dominators.AboveEnds(g, root, reach, level, levels);
    forall b | b in reach ensures LevelAt(g, level, b) && level[b] <= level[root] {
      assert b !in Dominators.Above(reach, level, levels, level[root], 0);
    }
  }

  class UseDef {
    const node: Graph
    var inUse: seq<set<Atom>>
    var outUse: seq<set<Atom>>
    var kill: seq<set<Atom>>

    ghost predicate Valid()
      reads this
    {
      Closed(node) && |inUse| == |outUse| == |kill| == |node|
    }

    constructor (g: Graph)
      requires Closed(g)
      ensures Valid() && node == g
    {
      node, inUse, outUse, kill := g, seq(|g|, _ => {}), seq(|g|, _ => {}), seq(|g|, _ => {});
    }

    ghost predicate LocalAt(b: Id)
      requires Valid() && b < |node|
      reads this
    {
      outUse[b] == {} && LocalSets(node[b], inUse[b], kill[b])
    }

    /** Blocks in done have their final sets, the others still their local ones. */
    ghost predicate Halfway(reach: set<Id>, done: set<Id>)
      requires Valid()
      reads this
    {
      && (forall b :: b in reach ==> b < |node|)
      && (forall b {:trigger LocalAt(b)} :: b in reach && b !in done ==> LocalAt(b))
      && LiveSets(node, done, inUse, outUse)
    }

    /** Local sets of every block, top level first. */
    method LocalSweep(root: Id, level: seq<nat>, levels: seq<seq<Id>>, ghost reach: set<Id>)
      requires Valid() && IsReach(node, root, reach) && Leveling(node, reach, level, levels)
      modifies this
      ensures Valid() && forall b :: b in reach ==> b < |node| && LocalAt(b)
    {
      hide Leveling, IsReach, Dominators.Above, LocalSets;
      Dominators.AboveEnds(node, root, reach, level, levels);
      var i := level[root];
      while i >= 0
        invariant -1 <= i < |levels| && Valid()
        invariant forall b :: b in Dominators.Above(reach, level, levels, i, 0) ==> b < |node| && LocalAt(b)
      {
        var j := 0;
        while j < |levels[i]|
          invariant 0 <= j <= |levels[i]| && Valid()
          invariant forall b :: b in Dominators.Above(reach, level, levels, i, j) ==> b < |node| && LocalAt(b)
        {
          Dominators.AboveNext(node, reach, level, levels, i, j);
          var b := levels[i][j];
          var use, k := ComputeLocalUd(node[b]);
          inUse, kill, outUse := inUse[b := use], kill[b := k], outUse[b := {}];
          j := j + 1;
        }
        Dominators.AboveDrop(node, reach, level, levels, i);
        i := i - 1;
      }
    }

    /** The sets of one block from those of its successors. */
    method Propagate(b: Id, ghost reach: set<Id>, ghost done: set<Id>)
      requires Valid() && b < |node| && b in reach && b !in done && node[b].s.Jmp? && SuccSet(node, b) <= done
      requires ClosedUnder(node, done) && Halfway(reach, done)
      modifies `inUse, `outUse
      ensures Valid() && Halfway(reach, done + {b})
    {
      hide LocalSets, LiveIn;
      ghost var in0, out0 := inUse, outUse;
      assert LiveSets(node, done, in0, out0);
      assert LocalAt(b);
      ghost var out := inUse[node[b].jt] + inUse[node[b].jf];
      LocalSetsHere(node[b], inUse[b], kill[b], out);
      outUse := outUse[b := outUse[b] + (inUse[node[b].jt] + inUse[node[b].jf])];
      inUse := inUse[b := inUse[b] + (outUse[b] - kill[b])];
      assert outUse[b] == out;
      assert LiveAt(node, inUse, outUse, b);
      forall c | c in done ensures LiveAt(node, inUse, outUse, c) {
        assert LiveAt(node, in0, out0, c);
      }
      forall c | c in reach && c !in done + {b} ensures LocalAt(c) {
        assert old(LocalAt(c));
      }
    }

    /** Live-in and live-out sets of every reachable block. */
    method FindUd(root: Id, level: seq<nat>, levels: seq<seq<Id>>, ghost reach: set<Id>)
      requires Valid() && IsReach(node, root, reach) && Leveling(node, reach, level, levels)
      modifies this
      ensures Valid() && LiveSets(node, reach, inUse, outUse)
    {
      hide Leveling, IsReach, Under, LocalSets, Halfway, ClosedUnder, LocalAt, LiveSets;
      LocalSweep(root, level, levels, reach);
      UnderEnds(node, root, reach, level, levels);
      LeavesFirst(reach, Under(reach, level, levels, 1, 0));
      var i := 1;
      while i <= level[root]
        invariant 1 <= i <= level[root] + 1 <= |levels| && Valid()
        invariant Halfway(reach, Under(reach, level, levels, i, 0))
      {
        var j := 0;
        while j < |levels[i]|
          invariant 0 <= j <= |levels[i]| && Valid()
          invariant Halfway(reach, Under(reach, level, levels, i, j))
        {
          UnderNext(node, reach, level, levels, i, j);
          Propagate(levels[i][j], reach, Under(reach, level, levels, i, j));
          j := j + 1;
        }
        UnderDrop(node, reach, level, levels, i);
        i := i + 1;
      }
      AllDone(reach);
    }

    lemma {:induction false} AllDone(reach: set<Id>)
      requires Valid() && Halfway(reach, reach)
      ensures LiveSets(node, reach, inUse, outUse)
    {
    }

    lemma {:induction false} LeavesFirst(reach: set<Id>, leaves: set<Id>)
      requires Valid() && forall b :: b in reach ==> b < |node| && LocalAt(b)
      requires forall b :: b in leaves <==> b in reach && b < |node| && !node[b].s.Jmp?
      ensures Halfway(reach, leaves)
    {
      forall b | b in leaves ensures LiveAt(node, inUse, outUse, b) {
        assert LocalAt(b);
        LocalSetsHere(node[b], inUse[b], kill[b], {});
      }
    }
  }

  lemma {:induction false} LocalSetsHere(n: Node, use: set<Atom>, kill: set<Atom>, out: set<Atom>)
    requires LocalSets(n, use, kill)
    ensures LocalSetsAt(n, use, kill, out)
  {
  }
}
