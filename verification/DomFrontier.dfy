/** Dominance frontiers and their iterated closure, computed over a finished
    dominator tree. */
module DomFrontier {
  import opened Wrappers
  import opened Paths
  import opened DomTree
  import opened Cfg
  import opened IdomFixpoint
  import opened Dominators
  import opened Sorting

  /** The frontier's definition: `b` dominates a reachable predecessor of `y`
      but does not strictly dominate `y`. */
  ghost predicate InFrontier(g: Graph, entry: nat, b: nat, y: nat) {
    && (exists p: nat :: IsDominatedPred(g, entry, b, y, p))
    && !(Paths.Dominates(g, entry, b, y) && b != y)
  }

  ghost predicate IsDominatedPred(g: Graph, entry: nat, b: nat, y: nat, p: nat) {
    Edge(g, p, y) && Reaches(g, entry, p) && Paths.Dominates(g, entry, b, p)
  }

  // ------------------------------------------------------------- the frontier

  /** What the upward walks record: `b` is on a reachable predecessor's chain
      below `y`'s own link. */
  ghost predicate Walked(t: Tree, preds: seq<nat>, k: nat, b: nat, y: nat)
    requires t.Ok() && t.Has(y) && k <= |preds|
  {
    exists j :: 0 <= j < k && t.Has(preds[j]) && t.Anc(b, preds[j]) && !t.Anc(b, t.Up(y))
  }

  /** One walk, from predecessor `p` of `y` up to `y`'s link: it always arrives
      there, and appends `y` to the list of every block on the way. */
  method Climb(df0: seq<seq<nat>>, idom: seq<Option<nat>>, y: nat, p: nat, top: nat, ghost t: Tree)
    returns (df: seq<seq<nat>>)
    requires t.Ok() && idom == t.idom && |df0| == |idom|
    requires t.Has(p) && t.Has(top) && t.Anc(top, p)
    ensures |df| == |df0|
    ensures forall b: nat, x: nat :: b < |df| ==>
              (x in df[b] <==> x in df0[b] || (x == y && t.Has(b) && t.Anc(b, p) && !t.Anc(b, top)))
  {
    df := df0;
    var runner := p;
    while runner != top
      invariant t.Has(runner) && t.Anc(top, runner) && |df| == |df0|
      invariant forall b: nat :: t.Has(b) && t.Anc(b, runner) ==> t.Anc(b, p)
      invariant forall b: nat, x: nat :: b < |df| ==>
                  (x in df[b] <==> x in df0[b] || (x == y && t.Has(b) && t.Anc(b, p) && !t.Anc(b, runner)))
      decreases t.num[runner]
    {
      df := df[runner := df[runner] + [y]];
      assert idom[runner].value == t.Up(runner);
      ghost var prev := runner;
      OnlyOnce(t, runner);
      match idom[runner] {
        case Some(next) => runner := next;
        case None => break;
      }
      assert runner == t.Up(prev) && t.Anc(prev, p);
    }
  }

  /** A block other than the root is not on its link's chain. */
  lemma OnlyOnce(t: Tree, x: nat)
    requires t.Ok() && t.Has(x) && (exists z: nat :: t.Has(z) && z != x && t.Anc(z, x))
    ensures x != t.entry && !t.Anc(x, t.Up(x))
  {
    if t.Anc(x, t.Up(x)) { AncFacts(t, x, t.Up(x)); }
  }

  /** Where the walks from `y`'s predecessors stop: `y`'s link is on every
      reachable predecessor's chain. */
  lemma LinkAbovePred(g: Graph, t: Tree, y: nat, p: nat)
    requires IsDominatorTree(g, t) && t.Has(y) && t.Has(p) && Edge(g, p, y)
    ensures t.Anc(t.Up(y), p)
  {
    if y == t.entry {
      EntryIsAnc(t, p);
    } else {
      assert IsMeet(g, t, y, t.Up(y)) && t.Anc(t.Up(y), t.Up(y));
      assert CommonAbove(g, t, y, t.Up(y));
    }
  }

  /** The walks of all of `y`'s predecessors. */
  method WalkPreds(g: Graph, df0: seq<seq<nat>>, preds: seq<nat>, idom: seq<Option<nat>>, reachable: seq<bool>,
                   y: nat, ghost t: Tree)
    returns (df: seq<seq<nat>>)
    requires IsDominatorTree(g, t) && t.Ok() && idom == t.idom && |df0| == |idom| == |reachable| == |g|
    requires forall q: nat :: q in preds <==> Edge(g, q, y)
    requires forall q: nat :: q < |g| ==> (reachable[q] <==> t.Has(q))
    requires t.Has(y)
    ensures |df| == |df0|
    ensures forall b: nat, x: nat :: b < |df| ==>
              (x in df[b] <==> x in df0[b] || (x == y && t.Has(b) && Walked(t, preds, |preds|, b, y)))
  {
    hide IsDominatorTree;
    df := df0;
    for k := 0 to |preds|
      invariant |df| == |df0|
      invariant forall b: nat, x: nat :: b < |df| ==>
                  (x in df[b] <==> x in df0[b] || (x == y && t.Has(b) && Walked(t, preds, k, b, y)))
    {
      var p := preds[k];
      assert p in preds && Edge(g, p, y);
      if reachable[p] {
        LinkAbovePred(g, t, y, p);
        assert idom[y].value == t.Up(y);
        var before := df;
        df := Climb(df, idom, y, p, idom[y].value, t);
        forall b: nat ensures Walked(t, preds, k + 1, b, y) <==>
            Walked(t, preds, k, b, y) || (t.Anc(b, p) && !t.Anc(b, t.Up(y)))
        {
          WalkedStep(t, preds, k, b, y);
        }
      } else {
        forall b: nat ensures Walked(t, preds, k + 1, b, y) <==> Walked(t, preds, k, b, y) {
          WalkedStep(t, preds, k, b, y);
        }
      }
    }
  }

  lemma WalkedStep(t: Tree, preds: seq<nat>, k: nat, b: nat, y: nat)
    requires t.Ok() && t.Has(y) && k < |preds|
    ensures Walked(t, preds, k + 1, b, y) <==>
            Walked(t, preds, k, b, y) || (t.Has(preds[k]) && t.Anc(b, preds[k]) && !t.Anc(b, t.Up(y)))
  {
    if Walked(t, preds, k + 1, b, y) {
      var j :| 0 <= j < k + 1 && t.Has(preds[j]) && t.Anc(b, preds[j]) && !t.Anc(b, t.Up(y));
    }
  }

  /** The walks record exactly the frontier, except at the entry block, which
      is never recorded in its own list. */
  lemma WalkedIsFrontier(g: Graph, t: Tree, preds: seq<nat>, b: nat, y: nat)
    requires WellFormed(g) && IsDominatorTree(g, t) && t.Has(y)
    requires forall q: nat :: q in preds <==> Edge(g, q, y)
    ensures Walked(t, preds, |preds|, b, y) <==> InFrontier(g, t.entry, b, y) && (y == t.entry ==> b != y)
  {
    if Walked(t, preds, |preds|, b, y) {
      var j :| 0 <= j < |preds| && t.Has(preds[j]) && t.Anc(b, preds[j]) && !t.Anc(b, t.Up(y));
      assert preds[j] in preds;
      DominatesIffAnc(g, t, b, preds[j]);
      ReachableIsProcessed(g, t, preds[j]);
      assert IsDominatedPred(g, t.entry, b, y, preds[j]);
      DominatesIffAnc(g, t, b, y);
    }
    if InFrontier(g, t.entry, b, y) && (y == t.entry ==> b != y) {
      var p: nat :| IsDominatedPred(g, t.entry, b, y, p);
      assert p in preds;
      var j :| 0 <= j < |preds| && preds[j] == p;
      ReachableIsProcessed(g, t, p);
      DominatesIffAnc(g, t, b, p);
      DominatesIffAnc(g, t, b, y);
      NotAboveLink(t, b, y);
      assert t.Has(preds[j]) && t.Anc(b, preds[j]) && !t.Anc(b, t.Up(y));
    }
  }

  lemma NotAboveLink(t: Tree, b: nat, y: nat)
    requires t.Ok() && t.Has(y) && !(t.Anc(b, y) && b != y) && (y == t.entry ==> b != y)
    ensures !t.Anc(b, t.Up(y))
  {
    if t.Anc(b, t.Up(y)) { AncFacts(t, b, t.Up(y)); }
  }

  /** A block with a single predecessor other than the entry is in no frontier. */
  lemma OnePredNoFrontier(g: Graph, t: Tree, preds: seq<nat>, b: nat, y: nat)
    requires IsDominatorTree(g, t) && t.Ok() && t.Has(y) && y != t.entry
    requires forall q: nat :: q in preds <==> Edge(g, q, y)
    requires |preds| < 2
    ensures !Walked(t, preds, |preds|, b, y)
  {
    hide IsDominatorTree;
    if Walked(t, preds, |preds|, b, y) {
      var j :| 0 <= j < |preds| && t.Has(preds[j]) && t.Anc(b, preds[j]) && !t.Anc(b, t.Up(y));
      assert CommonAbove(g, t, y, b) by {
        forall q: nat | t.Has(q) && Edge(g, q, y) ensures t.Anc(b, q) {
          assert q in preds;
          assert q == preds[0] == preds[j];
        }
      }
      LinkHoldsCommon(g, t, y, b);
    }
  }

  lemma LinkHoldsCommon(g: Graph, t: Tree, y: nat, b: nat)
    requires IsDominatorTree(g, t) && t.Has(y) && y != t.entry && CommonAbove(g, t, y, b)
    ensures t.Anc(b, t.Up(y))
  {
    assert IsMeet(g, t, y, t.Up(y));
  }

  /** The frontier of every block of one graph. */
  class DominanceFrontiers {
    var df: seq<seq<nat>>
    ghost var graph: Graph
    ghost var entry: Option<nat>
    /** Whether the entry block is a join of at least two edges. */
    ghost var entryIsJoin: bool

    ghost predicate Valid()
      reads this
    {
      && WellFormed(graph) && |df| == |graph|
      && (entry.Some? ==> entry.value < |graph|)
      && (forall b: nat :: b < |graph| ==> Increasing(df[b]))
      && (forall b: nat, y: nat :: b < |graph| ==> (y in df[b] <==> Computed(graph, entry, entryIsJoin, b, y)))
    }

    /** Walk up from every predecessor of every join, then sort the lists. */
    constructor (cfg: ControlFlowGraph, doms: DominatorTree)
      requires cfg.Valid() && doms.Valid() && doms.graph == cfg.succ
      ensures Valid() && graph == cfg.succ && entry == doms.entry
      ensures entry.Some? ==> entryIsJoin == (|cfg.preds[entry.value]| >= 2)
    {
      var lists := Collect(cfg, doms);
      var sorted := SortAll(lists);
      df := sorted;
      graph, entry := cfg.succ, doms.entry;
      entryIsJoin := doms.entry.Some? && |cfg.preds[doms.entry.value]| >= 2;
    }

    lemma InGraph()
      requires Valid()
      ensures forall b: nat, y: nat :: b < |df| && y in df[b] ==> y < |df|
    {
      forall b: nat, y: nat | b < |df| && y in df[b] ensures y < |df| {
        FrontierInGraph(graph, entry, entryIsJoin, b, y);
      }
    }

    /** The iterated frontier of `defs`: the least set that contains the
        frontiers of `defs` and is closed under taking frontiers, sorted. */
    method Iterated(defs: seq<nat>) returns (result: seq<nat>)
      requires Valid()
      ensures Increasing(result)
      ensures ClosedUnder(df, defs, set y | y in result)
      ensures forall r: set<nat> :: ClosedUnder(df, defs, r) ==> forall y :: y in result ==> y in r
    {
      var n := |df|;
      var inIdf := seq(n, _ => false);
      var worklist: seq<nat> := defs;
      result := [];
      DefsOpen(df, defs, inIdf);
      InGraph();
      while worklist != []
        invariant Open(df, defs, inIdf, worklist, result, n, 0)
        decreases Outside(inIdf), |worklist|
      {
        var x := worklist[|worklist| - 1];
        PopOpens(df, defs, inIdf, worklist, result);
        worklist := worklist[..|worklist| - 1];
        if x < n {
          ghost var before, depth := Outside(inIdf), |worklist|;
          var k := 0;
          while k < |df[x]|
            invariant k <= |df[x]| && Open(df, defs, inIdf, worklist, result, x, k)
            invariant Outside(inIdf) < before || (Outside(inIdf) == before && |worklist| == depth)
          {
            var y := df[x][k];
            assert y in df[x] && y < n;
            AddKeepsOpen(df, defs, inIdf, worklist, result, x, k);
            if !inIdf[y] {
              AddShrinks(inIdf, y);
              inIdf := inIdf[y := true];
              result := result + [y];
              worklist := worklist + [y];
            }
            k := k + 1;
          }
          DoneCloses(df, defs, inIdf, worklist, result, x);
        }
      }
      AllClosed(df, defs, inIdf, result);
      SortMembers(result);
      SortDistinct(result);
      result := Sort(result);
    }
  }

  lemma Sorted(list: seq<nat>)
    ensures Increasing(Dedup(Sort(list))) && forall y: nat :: y in Dedup(Sort(list)) <==> y in list
  {
    SortMembers(list);
    SortAscending(list);
    DedupIncreasing(Sort(list));
  }

  method SortAll(lists: seq<seq<nat>>) returns (sorted: seq<seq<nat>>)
    ensures |sorted| == |lists|
    ensures forall b: nat :: b < |sorted| ==> Increasing(sorted[b])
    ensures forall b: nat, y: nat :: b < |sorted| ==> (y in sorted[b] <==> y in lists[b])
  {
    sorted := [];
    while |sorted| < |lists|
      invariant |sorted| <= |lists|
      invariant forall b: nat :: b < |sorted| ==> Increasing(sorted[b])
      invariant forall b: nat, y: nat :: b < |sorted| ==> (y in sorted[b] <==> y in lists[b])
    {
      hide Sort, Dedup, Increasing;
      Sorted(lists[|sorted|]);
      sorted := sorted + [Dedup(Sort(lists[|sorted|]))];
    }
  }

  ghost function Outside(inIdf: seq<bool>): set<nat> {
    set y: nat | y < |inIdf| && !inIdf[y]
  }

  lemma AddShrinks(inIdf: seq<bool>, y: nat)
    requires y < |inIdf| && !inIdf[y]
    ensures Outside(inIdf[y := true]) < Outside(inIdf)
  {
    assert y in Outside(inIdf);
  }

  /** The worklist invariant while the list of `x` is scanned up to `k`
      (`x` out of range: between two pops). */
  ghost predicate Open(df: seq<seq<nat>>, defs: seq<nat>, inIdf: seq<bool>, worklist: seq<nat>, result: seq<nat>,
                       x: nat, k: nat) {
    && |inIdf| == |df|
    && (forall y: nat :: y in result <==> y < |df| && inIdf[y])
    && (forall i, j :: 0 <= i < j < |result| ==> result[i] != result[j])
    && (forall y :: y in worklist ==> y in defs || y in result)
    && (x < |df| ==> x in defs || x in result)
    && (x < |df| ==> k <= |df[x]| && forall i :: 0 <= i < k ==> df[x][i] in result)
    && (forall z: nat, y: nat :: z < |df| && z != x && (z in defs || z in result) && z !in worklist && y in df[z]
          ==> y in result)
    && (forall r: set<nat> :: ClosedUnder(df, defs, r) ==> forall y :: y in result ==> y in r)
  }

  lemma DefsOpen(df: seq<seq<nat>>, defs: seq<nat>, inIdf: seq<bool>)
    requires inIdf == seq(|df|, _ => false)
    ensures Open(df, defs, inIdf, defs, [], |df|, 0)
  { }

  lemma PopOpens(df: seq<seq<nat>>, defs: seq<nat>, inIdf: seq<bool>, worklist: seq<nat>, result: seq<nat>)
    requires worklist != [] && Open(df, defs, inIdf, worklist, result, |df|, 0)
    ensures Open(df, defs, inIdf, worklist[..|worklist| - 1], result, worklist[|worklist| - 1], 0)
    ensures worklist[|worklist| - 1] >= |df| ==> Open(df, defs, inIdf, worklist[..|worklist| - 1], result, |df|, 0)
  {
    var m := |worklist| - 1;
    assert worklist == worklist[..m] + [worklist[m]];
    assert worklist[m] in worklist;
  }

  lemma AddKeepsOpen(df: seq<seq<nat>>, defs: seq<nat>, inIdf: seq<bool>, worklist: seq<nat>, result: seq<nat>,
                     x: nat, k: nat)
    requires Open(df, defs, inIdf, worklist, result, x, k) && x < |df| && k < |df[x]| && df[x][k] < |df|
    ensures var y := df[x][k];
            if inIdf[y] then Open(df, defs, inIdf, worklist, result, x, k + 1)
            else Open(df, defs, inIdf[y := true], worklist + [y], result + [y], x, k + 1)
  {
    var y := df[x][k];
    assert y in df[x];
    forall r: set<nat> | ClosedUnder(df, defs, r) ensures y in r { assert x in defs || x in r; }
  }

  lemma DoneCloses(df: seq<seq<nat>>, defs: seq<nat>, inIdf: seq<bool>, worklist: seq<nat>, result: seq<nat>, x: nat)
    requires x < |df| && Open(df, defs, inIdf, worklist, result, x, |df[x]|)
    ensures Open(df, defs, inIdf, worklist, result, |df|, 0)
  { }

  lemma AllClosed(df: seq<seq<nat>>, defs: seq<nat>, inIdf: seq<bool>, result: seq<nat>)
    requires Open(df, defs, inIdf, [], result, |df|, 0)
    ensures forall i, j :: 0 <= i < j < |result| ==> result[i] != result[j]
    ensures ClosedUnder(df, defs, set y | y in result)
    ensures forall r: set<nat> :: ClosedUnder(df, defs, r) ==> forall y :: y in result ==> y in r
  { }

  /** Run the walks of every join. */
  method Collect(cfg: ControlFlowGraph, doms: DominatorTree) returns (df: seq<seq<nat>>)
    requires cfg.Valid() && doms.Valid() && doms.graph == cfg.succ
    ensures |df| == |cfg.succ|
    ensures forall b: nat, y: nat :: b < |df| ==>
              (y in df[b] <==> Computed(cfg.succ, doms.entry,
                                        doms.entry.Some? && |cfg.preds[doms.entry.value]| >= 2, b, y))
  {
    hide IsDominatorTree, Computed, IsLoopHeader;
    var g := cfg.succ;
    ghost var join := doms.entry.Some? && |cfg.preds[doms.entry.value]| >= 2;
    df := seq(|g|, _ => []);
    for y := 0 to |g|
      invariant |df| == |g|
      invariant forall b: nat, x: nat :: b < |df| ==>
                  (x in df[b] <==> x < y && Computed(g, doms.entry, join, b, x))
    {
      forall q: nat ensures q in cfg.preds[y] <==> Edge(g, q, y) { cfg.PredsAreEdges(y, q); }
      var preds := cfg.preds[y];
      ghost var before := df;
      if |preds| >= 2 && doms.idom[y].Some? {
        TreeFacts(doms);
        df := WalkPreds(g, df, preds, doms.idom, doms.reachable, y, doms.Links());
      }
      forall b: nat | b < |g|
        ensures Computed(g, doms.entry, join, b, y) <==> y in df[b]
      {
        if doms.entry.Some? {
          RowIsComputed(g, doms.Links(), preds, join, b, y);
        } else {
          NoEntryNoFrontier(g, join, b, y);
        }
      }
    }
    forall b: nat, y: nat | b < |g| && Computed(g, doms.entry, join, b, y) ensures y < |g| {
      FrontierInGraph(g, doms.entry, join, b, y);
    }
  }

  lemma NoEntryNoFrontier(g: Graph, join: bool, b: nat, y: nat)
    ensures !Computed(g, None, join, b, y)
  { }

  lemma TreeFacts(doms: DominatorTree)
    requires doms.Valid() && doms.entry.Some?
    ensures doms.Links().Ok()
    ensures forall q: nat :: q < |doms.graph| ==> (doms.reachable[q] <==> doms.Links().Has(q))
  { }

  lemma FrontierInGraph(g: Graph, entry: Option<nat>, join: bool, b: nat, y: nat)
    requires WellFormed(g) && Computed(g, entry, join, b, y)
    ensures y < |g|
  {
    var p: nat :| IsDominatedPred(g, entry.value, b, y, p);
  }

  /** What visiting `y` adds to the list of `b`. */
  lemma RowIsComputed(g: Graph, t: Tree, preds: seq<nat>, join: bool, b: nat, y: nat)
    requires WellFormed(g) && IsDominatorTree(g, t) && b < |g| && y < |g|
    requires forall q: nat :: q in preds <==> Edge(g, q, y)
    requires y == t.entry ==> (join <==> |preds| >= 2)
    ensures Computed(g, Some(t.entry), join, b, y)
            <==> |preds| >= 2 && t.Has(y) && t.Has(b) && Walked(t, preds, |preds|, b, y)
  {
    ReachableIsProcessed(g, t, b);
    ReachableIsProcessed(g, t, y);
    if t.Has(y) {
      WalkedIsFrontier(g, t, preds, b, y);
      if |preds| < 2 && y != t.entry { OnePredNoFrontier(g, t, preds, b, y); }
    } else if InFrontier(g, t.entry, b, y) {
      var p: nat :| IsDominatedPred(g, t.entry, b, y, p);
      ReachesStep(g, t.entry, p, y);
    }
  }

  /** What `df[b]` holds: the frontier; for the entry block `y`, only when it
      is a join, and never in its own list. */
  ghost predicate Computed(g: Graph, entry: Option<nat>, entryIsJoin: bool, b: nat, y: nat) {
    && entry.Some? && Reaches(g, entry.value, b)
    && InFrontier(g, entry.value, b, y)
    && (y == entry.value ==> b != y && entryIsJoin)
  }

  ghost predicate ClosedUnder(df: seq<seq<nat>>, defs: seq<nat>, r: set<nat>) {
    forall x: nat, y: nat :: x < |df| && (x in defs || x in r) && y in df[x] ==> y in r
  }

  /** The recorded lists are the frontier's definition, for every pair of
      reachable blocks, exactly when the entry has no reachable predecessor. */
  lemma ExactIffEntryHasNoPred(g: Graph, entry: nat, entryIsJoin: bool)
    requires WellFormed(g) && entry < |g|
    ensures (forall b: nat, y: nat :: b < |g| && Reaches(g, entry, b)
               ==> (Computed(g, Some(entry), entryIsJoin, b, y) <==> InFrontier(g, entry, b, y)))
            <==> (forall p: nat :: Edge(g, p, entry) ==> !Reaches(g, entry, p))
  {
    assert Reaches(g, entry, entry) by { assert PathFromTo(g, [entry], entry, entry); }
    if p: nat :| Edge(g, p, entry) && Reaches(g, entry, p) {
      forall path | PathFromTo(g, path, entry, p) ensures entry in path { assert path[0] == entry; }
      assert IsDominatedPred(g, entry, entry, entry, p);
      assert InFrontier(g, entry, entry, entry) && !Computed(g, Some(entry), entryIsJoin, entry, entry);
    }
  }
}
