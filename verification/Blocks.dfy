/** Flow graphs of basic blocks. Blocks live in a table and are named by their index in it. */
module Blocks {
  import opened Bpf

  type Id = nat
  // A successor link: a block, or NIL.
  type Ref = r: int | -1 <= r
  const NIL: Ref := -1

  datatype Node = Node(stmts: seq<Stmt>, s: Branch, jt: Ref, jf: Ref) {
    function Succ(side: bool): Ref { if side then jt else jf }
  }

  type Graph = seq<Node>

  /** Branches have two successors inside the graph; returns have none. */
  predicate Closed(g: Graph) {
    forall b {:trigger g[b].s} {:trigger g[b].jt} {:trigger g[b].jf} :: 0 <= b < |g| ==>
      if g[b].s.Jmp? then 0 <= g[b].jt < |g| && 0 <= g[b].jf < |g|
      else g[b].jt == NIL && g[b].jf == NIL
  }

  predicate ReturnsConstants(g: Graph) { forall b {:trigger g[b]} :: 0 <= b < |g| ==> !g[b].s.RetA? }

  /** Nothing is done before returning. */
  predicate PlainReturns(g: Graph) { forall b {:trigger g[b]} :: 0 <= b < |g| && !g[b].s.Jmp? ==> g[b].stmts == [] }

  type Levels = seq<nat>

  /** lv strictly descends along every edge, so g is acyclic. */
  predicate Leveled(g: Graph, lv: Levels) {
    && |lv| == |g|
    && Closed(g)
    && forall b {:trigger g[b].s} {:trigger g[b].jt} {:trigger g[b].jf} :: 0 <= b < |g| && g[b].s.Jmp? ==>
         lv[g[b].jt] < lv[b] && lv[g[b].jf] < lv[b]
  }

  // How a visit to one block ends: the run is over, or it leaves through one side.
  datatype Landing = Done(o: Outcome) | Next(side: bool, st: State)

  function Land(n: Node, st: State, p: Packet): Landing {
    match Exec(n.stmts, st, p)
    case None => Done(Fault)
    case Some(st') =>
      match n.s
      case RetK(k) => Done(Return(k))
      case RetA => Done(Return(st'[A_ATOM]))
      case Jmp(_, _) => Next(Taken(n.s, st'), st')
  }

  /** Walk the graph from b, visiting at most fuel blocks. */
  function Run(g: Graph, b: Id, st: State, p: Packet, fuel: nat): Outcome
    requires Closed(g) && b < |g|
    decreases fuel
  {
    if fuel == 0 then Lost
    else match Land(g[b], st, p)
      case Done(o) => o
      case Next(side, st') => Run(g, g[b].Succ(side), st', p, fuel - 1)
  }

  /** In an acyclic graph the level of a block is enough fuel, and more changes nothing. */
  lemma {:induction false} RunTerminates(g: Graph, lv: Levels, b: Id, st: State, p: Packet, fuel: nat)
    requires Leveled(g, lv) && b < |g| && lv[b] < fuel
    ensures Run(g, b, st, p, fuel) == Run(g, b, st, p, lv[b] + 1) != Lost
    decreases lv[b]
  {
    match Land(g[b], st, p)
    case Done(_) =>
    case Next(side, st') =>
      RunTerminates(g, lv, g[b].Succ(side), st', p, fuel - 1);
      RunTerminates(g, lv, g[b].Succ(side), st', p, lv[b]);
  }

  function SuccSet(g: Graph, b: Id): set<Ref>
    requires b < |g|
  {
    if g[b].s.Jmp? then {g[b].jt, g[b].jf} else {}
  }

  /** A set of blocks that no edge leaves. */
  ghost predicate ClosedUnder(g: Graph, T: set<Id>) {
    forall b :: b in T ==> b < |g| && SuccSet(g, b) <= T
  }
}
