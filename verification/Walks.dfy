/** Runs seen as walks: each block makes one choice, fixed for the whole run. */
module Walks {
  import opened Bpf
  import opened Blocks
  import opened Dominators

  datatype Choice = End(o: Outcome) | Go(side: bool)

  /** S is closed under the edges of g, and levels fall along them. */
  predicate Descends(g: Graph, S: set<Id>, level: seq<nat>) {
    && |level| == |g|
    && (forall b :: b in S ==> b < |g|)
    && forall b {:trigger DownAt(g, S, level, b)} :: b in S ==> DownAt(g, S, level, b)
  }

  predicate DownAt(g: Graph, S: set<Id>, level: seq<nat>, b: Id)
    requires b < |g| == |level|
  {
    g[b].s.Jmp? ==>
      && 0 <= g[b].jt < |g| && g[b].jt in S && level[g[b].jt] < level[b]
      && 0 <= g[b].jf < |g| && g[b].jf in S && level[g[b].jf] < level[b]
  }

  lemma {:induction false} Down(g: Graph, S: set<Id>, level: seq<nat>, b: Id, side: bool)
    requires Descends(g, S, level) && b in S && g[b].s.Jmp?
    ensures var c := g[b].Succ(side); 0 <= c < |g| && c in S && level[c] < level[b]
  {
    assert DownAt(g, S, level, b);
  }

  /** Where the choices lead. */
  function Walk(g: Graph, S: set<Id>, level: seq<nat>, ch: seq<Choice>, b: Id): Outcome
    requires Descends(g, S, level) && |ch| == |g| && b in S
    decreases level[b]
  {
    assert DownAt(g, S, level, b);
    match ch[b]
    case End(o) => o
    case Go(side) => if g[b].s.Jmp? then Walk(g, S, level, ch, g[b].Succ(side)) else Lost
  }

  /** Same statements and branches; only the edges may differ. */
  predicate SameBlocks(g: Graph, g2: Graph) {
    |g| == |g2| && forall b {:trigger g2[b]} {:trigger g[b]} :: 0 <= b < |g| ==> g2[b] == g[b].(jt := g2[b].jt, jf := g2[b].jf)
  }

  lemma {:induction false} SameAsSelf(g: Graph)
    ensures SameBlocks(g, g)
  {
  }

  // The choice a block makes in a given state.
  function ChoiceIn(n: Node, st: State, p: Packet): Choice {
    match Land(n, st, p)
    case Done(o) => End(o)
    case Next(side, _) => Go(side)
  }

  // Edge e of g moved to target.
  function Moved(g: Graph, e: EdgeId, target: Id): Graph
    requires e < 2 * |g|
  {
    var b := Tail(g, e);
    g[b := if e < |g| then g[b].(jt := target) else g[b].(jf := target)]
  }

  lemma {:induction false} MovedHead(g: Graph, e: EdgeId, target: Id, d: EdgeId)
    requires e < 2 * |g| && d < 2 * |g|
    ensures |Moved(g, e, target)| == |g| && Tail(Moved(g, e, target), d) == Tail(g, d)
    ensures Head(Moved(g, e, target), d) == if d == e then target else Head(g, d)
    ensures SameBlocks(g, Moved(g, e, target))
  {
  }
}
