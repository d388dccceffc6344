/** Dominance in an acyclic relation, and the sweep of intersections that computes it. */
module Dominance {

  // pred[c] is the set of nodes with an arc to node c.
  type Preds = seq<set<nat>>

  /** Ranks strictly fall along every arc. */
  predicate Ranked(pred: Preds, rank: seq<nat>) {
    && |rank| == |pred|
    && forall c, m :: 0 <= c < |pred| && m in pred[c] ==> m < |pred| && rank[c] < rank[m]
  }

  /** p leads along arcs from an entry to its last node. */
  predicate IsPath(pred: Preds, entry: set<nat>, p: seq<nat>) {
    && |p| > 0 && p[|p|-1] < |pred|
    && if |p| == 1 then p[0] in entry
       else p[|p|-2] in pred[p[|p|-1]] && IsPath(pred, entry, p[..|p|-1])
  }

  predicate PathTo(pred: Preds, entry: set<nat>, p: seq<nat>, c: nat) {
    IsPath(pred, entry, p) && p[|p|-1] == c
  }

  /** Every path from an entry to c goes through x. */
  ghost predicate Dominates(pred: Preds, entry: set<nat>, x: nat, c: nat) {
    forall p {:trigger PathTo(pred, entry, p, c)} :: PathTo(pred, entry, p, c) ==> x in p
  }

  /** x is in the set of c when c, or every predecessor of c among those done, puts it there. */
  predicate MemberAt(pred: Preds, entry: set<nat>, done: set<nat>, dom: seq<set<nat>>, c: nat, x: nat)
    requires |dom| == |pred| && c < |pred| && forall m :: m in done ==> m < |pred|
  {
    x in dom[c] <==> (c in done && x == c) || (c !in entry && forall m :: m in pred[c] && m in done ==> x in dom[m])
  }

  /** The state of the sweep over reach when the nodes in done have been visited. */
  predicate Sweep(pred: Preds, entry: set<nat>, reach: set<nat>, done: set<nat>, dom: seq<set<nat>>) {
    && |dom| == |pred| && done <= reach
    && (forall m :: m in done ==> m < |pred| && pred[m] * reach <= done)
    && (forall c, x {:trigger x in dom[c]} :: 0 <= c < |pred| && x in dom[c] ==> x < |pred|)
    && forall c, x {:trigger MemberAt(pred, entry, done, dom, c, x)} :: 0 <= c < |pred| && 0 <= x < |pred| ==>
         MemberAt(pred, entry, done, dom, c, x)
  }

  function All(n: nat): (r: set<nat>)
    ensures forall x: nat :: x in r <==> x < n
  {
    if n == 0 then {} else All(n - 1) + {n - 1}
  }

  /** The sets before the sweep: empty for entries, full for the rest. */
  lemma {:induction false} SweepStart(pred: Preds, entry: set<nat>, reach: set<nat>, dom: seq<set<nat>>)
    requires |dom| == |pred|
    requires forall c :: 0 <= c < |pred| ==> dom[c] == if c in entry then {} else All(|pred|)
    ensures Sweep(pred, entry, reach, {}, dom)
  {
    forall c, x | 0 <= c < |pred| && 0 <= x < |pred| ensures MemberAt(pred, entry, {}, dom, c, x) {
    }
  }

  /** What one visit does to the sets: n joins its own, and its successors keep what n has. */
  predicate Visited(pred: Preds, dom: seq<set<nat>>, dom': seq<set<nat>>, n: nat)
    requires n < |pred| == |dom| == |dom'|
  {
    && dom'[n] == dom[n] + {n}
    && forall c {:trigger dom'[c]} :: 0 <= c < |pred| && c != n ==>
         dom'[c] == if n in pred[c] then dom[c] * dom'[n] else dom[c]
  }

  lemma {:induction false} SweepStep(pred: Preds, entry: set<nat>, reach: set<nat>, done: set<nat>, dom: seq<set<nat>>, dom': seq<set<nat>>, n: nat)
    requires Sweep(pred, entry, reach, done, dom) && n < |pred| == |dom'| && Visited(pred, dom, dom', n)
    requires n in reach && n !in done && n !in pred[n] && pred[n] * reach <= done
    ensures Sweep(pred, entry, reach, done + {n}, dom')
  {
    forall m | m in done ensures dom'[m] == dom[m] {
    }
    forall c, x | 0 <= c < |pred| && 0 <= x < |pred| ensures MemberAt(pred, entry, done + {n}, dom', c, x) {
      assert MemberAt(pred, entry, done, dom, c, x);
      assert MemberAt(pred, entry, done, dom, n, x);
    }
  }

  /** When the sweep has visited everything reachable, its sets are exactly the dominators. */
  lemma {:induction false} SweepExact(pred: Preds, entry: set<nat>, reach: set<nat>, dom: seq<set<nat>>, rank: seq<nat>, top: nat, c: nat, x: nat)
    requires Sweep(pred, entry, reach, reach, dom) && Ranked(pred, rank) && entry <= reach
    requires forall m :: m in reach ==> rank[m] <= top
    requires forall k, m :: 0 <= k < |pred| && m in pred[k] && m in reach ==> k in reach
    requires c in reach && x < |pred|
    ensures x in dom[c] <==> Dominates(pred, entry, x, c)
  {
    if x in dom[c] {
      forall p | PathTo(pred, entry, p, c) ensures x in p {
        OnPath(pred, entry, reach, dom, p, x);
      }
    } else {
      var p := Avoid(pred, entry, reach, dom, rank, top, c, x);
      assert PathTo(pred, entry, p, c);
    }
  }

  lemma {:induction false} OnPath(pred: Preds, entry: set<nat>, reach: set<nat>, dom: seq<set<nat>>, p: seq<nat>, x: nat)
    requires Sweep(pred, entry, reach, reach, dom) && IsPath(pred, entry, p) && entry <= reach && x < |pred|
    requires forall k, m :: 0 <= k < |pred| && m in pred[k] && m in reach ==> k in reach
    ensures p[|p|-1] in reach && (x in dom[p[|p|-1]] ==> x in p)
    decreases |p|
  {
    var c := p[|p|-1];
    assert MemberAt(pred, entry, reach, dom, c, x);
    if |p| > 1 {
      OnPath(pred, entry, reach, dom, p[..|p|-1], x);
    }
  }

  lemma {:induction false} Avoid(pred: Preds, entry: set<nat>, reach: set<nat>, dom: seq<set<nat>>, rank: seq<nat>, top: nat, c: nat, x: nat)
    returns (p: seq<nat>)
    requires Sweep(pred, entry, reach, reach, dom) && Ranked(pred, rank)
    requires forall m :: m in reach ==> rank[m] <= top
    requires c in reach && x < |pred| && x !in dom[c]
    ensures PathTo(pred, entry, p, c) && x !in p
    decreases top - rank[c]
  {
    assert MemberAt(pred, entry, reach, dom, c, x);
    if c in entry {
      p := [c];
    } else {
      var m :| m in pred[c] && m in reach && x !in dom[m];
      var q := Avoid(pred, entry, reach, dom, rank, top, m, x);
      p := q + [c];
      assert p[..|p|-1] == q;
    }
  }
}
