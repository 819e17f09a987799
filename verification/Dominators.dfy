/** The dominator tree of a control-flow graph: construction, chain queries and
    loop headers, proved exact against path dominance. */
module Dominators {
  import opened Wrappers
  import opened Paths
  import opened DomTree
  import opened Cfg
  import opened DepthFirst
  import opened IdomFixpoint

  /** The finished immediate-dominator tree. */
  class DominatorTree {
    var idom: seq<Option<nat>>
    var reachable: seq<bool>
    var loopHeader: seq<bool>
    /** The entry, the graph and the numbering the tree was built from. */
    ghost var entry: Option<nat>
    ghost var graph: Graph
    ghost var rpoIndex: seq<nat>

    ghost function Links(): Tree
      requires entry.Some?
      reads this
    {
      Tree(idom, rpoIndex, entry.value)
    }

    /** What the columns mean in terms of paths. */
    ghost predicate Valid()
      reads this
    {
      && WellFormed(graph)
      && |idom| == |reachable| == |loopHeader| == |graph|
      && (entry.None? ==> forall b :: 0 <= b < |graph| ==> idom[b].None? && !reachable[b] && !loopHeader[b])
      && (entry.Some? ==>
            && entry.value < |graph|
            && IsDominatorTree(graph, Links())
            && (forall b: nat :: b < |graph| ==> (reachable[b] <==> Reaches(graph, entry.value, b)))
            && (forall h: nat :: h < |graph| ==> (loopHeader[h] <==> IsLoopHeader(graph, entry.value, h))))
    }

    /** Build the tree of `cfg` from entry block `start` (`None`: a declaration). */
    constructor (cfg: ControlFlowGraph, start: Option<nat>)
      requires cfg.Valid() && (start.Some? ==> start.value < |cfg.succ|)
      ensures Valid() && graph == cfg.succ && entry == start
    {
      var g := cfg.succ;
      graph, entry := g, start;
      match start {
        case None =>
          idom := seq(|g|, _ => None);
          reachable := seq(|g|, _ => false);
          loopHeader := seq(|g|, _ => false);
        case Some(e) =>
          var post, visited, parent := PostOrder(g, e);
          var rpo, num := Number(g, e, post, visited, parent);
          forall b: nat, q: nat | b < |g| ensures q in cfg.preds[b] <==> Edge(g, q, b) {
            cfg.PredsAreEdges(b, q);
          }
          var links, t := Fixpoint(g, e, cfg.preds, rpo, num, visited);
          FixpointIsTree(g, rpo, t);
          var headers := LoopHeaders(g, cfg.preds, links, visited, t);
          idom, reachable, rpoIndex, loopHeader := links, visited, num, headers;
      }
    }

    method IsReachable(b: nat) returns (r: bool)
      requires Valid()
      ensures r <==> entry.Some? && b < |graph| && Reaches(graph, entry.value, b)
    {
      r := b < |reachable| && reachable[b];
    }

    /** Whether `a` dominates `b`, reflexively; false off the reachable part. */
    method Dominates(a: nat, b: nat) returns (r: bool)
      requires Valid()
      ensures r <==> && entry.Some? && a < |graph| && b < |graph|
                     && Reaches(graph, entry.value, a) && Reaches(graph, entry.value, b)
                     && Paths.Dominates(graph, entry.value, a, b)
    {
      if a >= |idom| || b >= |idom| || !reachable[a] || !reachable[b] {
        return false;
      }
      r := OnChain(idom, a, b, Links());
      DominatesIffAnc(graph, Links(), a, b);
    }
  }

  /** `h` is the target of a back edge: a reachable predecessor is dominated
      by `h`. */
  ghost predicate IsLoopHeader(g: Graph, entry: nat, h: nat) {
    && Reaches(g, entry, h)
    && exists p: nat :: IsBackEdge(g, entry, p, h)
  }

  ghost predicate IsBackEdge(g: Graph, entry: nat, p: nat, h: nat) {
    Edge(g, p, h) && Reaches(g, entry, p) && Paths.Dominates(g, entry, h, p)
  }

  /** A finished tree: processed means reachable, every link is the meet of the
      predecessors' chains, and no strict dominator has been lost. */
  ghost predicate IsDominatorTree(g: Graph, t: Tree) {
    && t.Ok() && |t.idom| == |g| && t.entry < |g|
    && AboveTruth(g, t)
    && (forall x: nat :: x < |g| ==> (t.Has(x) <==> Reaches(g, t.entry, x)))
    && (forall b: nat :: t.Has(b) && b != t.entry ==> IsMeet(g, t, b, t.Up(b)))
  }

  lemma FixpointIsTree(g: Graph, rpo: seq<nat>, t: Tree)
    requires t.Ok() && |t.idom| == |g| && t.entry < |g| && IsRpo(g, t.entry, rpo, t.num)
    requires AboveTruth(g, t) && InRpo(rpo, t) && MeetsTo(g, rpo, t, |rpo|)
    ensures IsDominatorTree(g, t)
  {
    forall x: nat | x < |g| ensures t.Has(x) <==> Reaches(g, t.entry, x) {
      if x in rpo {
        var j :| 0 <= j < |rpo| && rpo[j] == x;
      }
    }
    forall b: nat | t.Has(b) && b != t.entry ensures IsMeet(g, t, b, t.Up(b)) {
      var j :| 0 <= j < |rpo| && rpo[j] == b;
    }
  }

  lemma TreeMeetsAbove(g: Graph, t: Tree)
    requires IsDominatorTree(g, t)
    ensures MeetsAbove(g, t)
  {
    forall b: nat, q: nat, z: nat |
      t.Has(b) && b != t.entry && t.Has(q) && Edge(g, q, b) && t.Anc(z, t.Up(b)) ensures t.Anc(z, q)
    {
      assert IsMeet(g, t, b, t.Up(b));
      assert CommonAbove(g, t, b, z);
    }
  }

  /** The chain relation of a finished tree is path dominance. */
  lemma DominatesIffAnc(g: Graph, t: Tree, a: nat, b: nat)
    requires WellFormed(g) && IsDominatorTree(g, t) && t.Has(b)
    ensures Paths.Dominates(g, t.entry, a, b) <==> t.Anc(a, b)
  {
    if t.Anc(a, b) {
      TreeMeetsAbove(g, t);
      forall p | PathFromTo(g, p, t.entry, b) ensures a in p {
        ChainOnPath(g, t, a, b, p);
      }
    }
    if Paths.Dominates(g, t.entry, a, b) {
      DominatorOnChain(g, t, a, b);
    }
  }

  /** The link of a block is its immediate dominator: a strict dominator that
      every strict dominator dominates. */
  lemma LinkIsImmediateDominator(g: Graph, t: Tree, b: nat)
    requires WellFormed(g) && IsDominatorTree(g, t) && t.Has(b) && b != t.entry
    ensures t.Up(b) != b && Paths.Dominates(g, t.entry, t.Up(b), b)
    ensures forall d: nat :: d != b && Paths.Dominates(g, t.entry, d, b)
              ==> Paths.Dominates(g, t.entry, d, t.Up(b))
  {
    assert t.Anc(t.Up(b), b);
    DominatesIffAnc(g, t, t.Up(b), b);
  }

  /** Climb from `b` until `a` or the root of the chain. */
  method OnChain(idom: seq<Option<nat>>, a: nat, b: nat, ghost t: Tree) returns (r: bool)
    requires t.Ok() && idom == t.idom && t.Has(b)
    ensures r <==> t.Anc(a, b)
  {
    var x := b;
    while true
      invariant t.Has(x) && (t.Anc(a, x) <==> t.Anc(a, b))
      decreases t.num[x]
    {
      if x == a { return true; }
      assert t.Up(x) == idom[x].value;
      match idom[x] {
        case Some(i) =>
          if i == x { return false; }
          x := i;
        case None => return false;
      }
    }
  }

  /** A block heads a loop when it dominates one of its reachable predecessors. */
  method LoopHeaders(g: Graph, preds: seq<seq<nat>>, idom: seq<Option<nat>>, reachable: seq<bool>, ghost t: Tree)
    returns (headers: seq<bool>)
    requires WellFormed(g) && IsDominatorTree(g, t) && idom == t.idom
    requires |preds| == |g| && forall b: nat, q: nat :: b < |g| ==> (q in preds[b] <==> Edge(g, q, b))
    requires |reachable| == |g| && forall b: nat :: b < |g| ==> (reachable[b] <==> Reaches(g, t.entry, b))
    ensures |headers| == |g|
    ensures forall h: nat :: h < |g| ==> (headers[h] <==> IsLoopHeader(g, t.entry, h))
  {
    hide IsDominatorTree, IsLoopHeader;
    headers := seq(|g|, _ => false);
    for b := 0 to |g|
      invariant |headers| == |g|
      invariant forall h: nat :: h < b ==> (headers[h] <==> IsLoopHeader(g, t.entry, h))
      invariant forall h: nat :: b <= h < |g| ==> !headers[h]
    {
      if reachable[b] {
        var back := HasBackEdge(g, preds[b], idom, reachable, b, t);
        headers := headers[b := back];
      } else {
        UnreachableHeadsNothing(g, t.entry, b);
      }
    }
  }

  lemma UnreachableHeadsNothing(g: Graph, entry: nat, b: nat)
    requires !Reaches(g, entry, b)
    ensures !IsLoopHeader(g, entry, b)
  { }

  /** Whether some reachable predecessor of `b` is dominated by it. */
  method HasBackEdge(g: Graph, preds: seq<nat>, idom: seq<Option<nat>>, reachable: seq<bool>, b: nat, ghost t: Tree)
    returns (back: bool)
    requires WellFormed(g) && IsDominatorTree(g, t) && idom == t.idom && Reaches(g, t.entry, b)
    requires forall q: nat :: q in preds <==> Edge(g, q, b)
    requires |reachable| == |g| && forall b: nat :: b < |g| ==> (reachable[b] <==> Reaches(g, t.entry, b))
    ensures back <==> IsLoopHeader(g, t.entry, b)
  {
    hide IsDominatorTree, Paths.Dominates;
    for k := 0 to |preds|
      invariant forall j :: 0 <= j < k ==> !IsBackEdge(g, t.entry, preds[j], b)
    {
      var p := preds[k];
      assert p in preds && Edge(g, p, b);
      if reachable[p] {
        ReachableIsProcessed(g, t, p);
        var dominated := OnChain(idom, b, p, t);
        DominatesIffAnc(g, t, b, p);
        if dominated {
          assert IsBackEdge(g, t.entry, p, b);
          return true;
        }
      }
    }
    forall p: nat ensures !IsBackEdge(g, t.entry, p, b) {
      if Edge(g, p, b) { assert p in preds; }
    }
    back := false;
  }

  lemma ReachableIsProcessed(g: Graph, t: Tree, p: nat)
    requires WellFormed(g) && IsDominatorTree(g, t)
    ensures t.Ok() && (Reaches(g, t.entry, p) <==> t.Has(p))
  {
    if Reaches(g, t.entry, p) {
      var path :| PathFromTo(g, path, t.entry, p);
      PathInGraph(g, path, |path| - 1);
    }
  }
}
