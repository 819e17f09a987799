/** Directed graphs over dense block indices, their paths, and path dominance:
    the declarative notions the dominator and frontier computations refine. */
module Paths {

  /** `g[b]` lists the successors of block `b`, in edge order. */
  type Graph = seq<seq<nat>>

  ghost predicate WellFormed(g: Graph) {
    forall b, i :: 0 <= b < |g| && 0 <= i < |g[b]| ==> g[b][i] < |g|
  }

  predicate Edge(g: Graph, a: nat, b: nat) {
    a < |g| && b in g[a]
  }

  ghost predicate IsPath(g: Graph, p: seq<nat>) {
    && p != []
    && p[0] < |g|
    && forall i :: 0 <= i < |p| - 1 ==> Edge(g, p[i], p[i + 1])
  }

  ghost predicate PathFromTo(g: Graph, p: seq<nat>, a: nat, b: nat) {
    IsPath(g, p) && p[0] == a && p[|p| - 1] == b
  }

  ghost predicate Reaches(g: Graph, a: nat, b: nat) {
    exists p :: PathFromTo(g, p, a, b)
  }

  /** `a` dominates `b`: every path from the entry to `b` passes through `a`. */
  ghost predicate Dominates(g: Graph, entry: nat, a: nat, b: nat) {
    forall p :: PathFromTo(g, p, entry, b) ==> a in p
  }

  lemma PathExtend(g: Graph, p: seq<nat>, a: nat, b: nat, c: nat)
    requires PathFromTo(g, p, a, b) && Edge(g, b, c)
    ensures PathFromTo(g, p + [c], a, c)
  {
    var q := p + [c];
    forall i | 0 <= i < |q| - 1 ensures Edge(g, q[i], q[i + 1]) {
      if i < |p| - 1 { assert Edge(g, p[i], p[i + 1]); }
    }
  }

  lemma PathPrefix(g: Graph, p: seq<nat>, k: nat)
    requires IsPath(g, p) && k < |p|
    ensures PathFromTo(g, p[..k + 1], p[0], p[k])
  {
    var q := p[..k + 1];
    forall i | 0 <= i < |q| - 1 ensures Edge(g, q[i], q[i + 1]) {
      assert Edge(g, p[i], p[i + 1]);
    }
  }

  lemma PathSuffix(g: Graph, p: seq<nat>, k: nat)
    requires WellFormed(g) && IsPath(g, p) && k < |p|
    ensures PathFromTo(g, p[k..], p[k], p[|p| - 1])
  {
    PathInGraph(g, p, k);
    var q := p[k..];
    forall i | 0 <= i < |q| - 1 ensures Edge(g, q[i], q[i + 1]) {
      assert Edge(g, p[k + i], p[k + i + 1]);
    }
  }

  lemma PathInGraph(g: Graph, p: seq<nat>, k: nat)
    requires WellFormed(g) && IsPath(g, p) && k < |p|
    ensures p[k] < |g|
  {
    if k > 0 { assert Edge(g, p[k - 1], p[k]); }
  }

  /** Two paths that share an end point join up there. */
  lemma PathJoin(g: Graph, p: seq<nat>, q: seq<nat>, a: nat, b: nat, c: nat)
    requires PathFromTo(g, p, a, b) && PathFromTo(g, q, b, c)
    ensures PathFromTo(g, p + q[1..], a, c)
  {
    var r := p + q[1..];
    forall i | 0 <= i < |r| - 1 ensures Edge(g, r[i], r[i + 1]) {
      if i < |p| - 1 {
        assert Edge(g, p[i], p[i + 1]);
      } else {
        var j := i - (|p| - 1);
        assert Edge(g, q[j], q[j + 1]);
      }
    }
  }

  lemma ReachesStep(g: Graph, a: nat, b: nat, c: nat)
    requires Reaches(g, a, b) && Edge(g, b, c)
    ensures Reaches(g, a, c)
  {
    var p :| PathFromTo(g, p, a, b);
    PathExtend(g, p, a, b, c);
  }

  lemma ReachesAlong(g: Graph, entry: nat, p: seq<nat>, k: nat)
    requires IsPath(g, p) && k < |p| && Reaches(g, entry, p[0])
    ensures Reaches(g, entry, p[k])
  {
    PathPrefix(g, p, k);
    var q :| PathFromTo(g, q, entry, p[0]);
    PathJoin(g, q, p[..k + 1], entry, p[0], p[k]);
  }

  /** A strict dominator of a block dominates each of its predecessors. */
  lemma StrictDominatorOfPred(g: Graph, entry: nat, d: nat, b: nat, q: nat)
    requires Dominates(g, entry, d, b) && d != b && Edge(g, q, b)
    ensures Dominates(g, entry, d, q)
  {
    forall p | PathFromTo(g, p, entry, q) ensures d in p {
      PathExtend(g, p, entry, q, b);
      assert d in p + [b];
    }
  }

  lemma DominatesEntry(g: Graph, entry: nat, d: nat)
    requires entry < |g| && Dominates(g, entry, d, entry)
    ensures d == entry
  {
    assert PathFromTo(g, [entry], entry, entry);
  }
}
