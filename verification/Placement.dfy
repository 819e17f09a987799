/** Why the iterated dominance frontier is the right place for block
    parameters: it is exactly the closure of the definition blocks under joins
    of disjoint paths. */
module Placement {
  import opened Wrappers
  import opened Paths
  import opened DomTree
  import opened Dominators
  import opened DomFrontier

  /** Two nonempty paths, from `x` and from `y`, that first meet at `z`. */
  ghost predicate Converge(g: Graph, p: seq<nat>, q: seq<nat>, x: nat, y: nat, z: nat) {
    && PathFromTo(g, p, x, z) && |p| > 1
    && PathFromTo(g, q, y, z) && |q| > 1
    && forall i, j :: 0 <= i < |p| && 0 <= j < |q| && p[i] == q[j] ==> i == |p| - 1 || j == |q| - 1
  }

  ghost predicate IsJoin(g: Graph, x: nat, y: nat, z: nat) {
    x != y && exists p, q :: Converge(g, p, q, x, y, z)
  }

  /** `r` absorbs every join of reachable blocks drawn from `defs` and `r`. */
  ghost predicate JoinClosed(g: Graph, entry: nat, defs: set<nat>, r: set<nat>) {
    forall x: nat, y: nat, z: nat ::
      x in defs + r && y in defs + r && Reaches(g, entry, x) && Reaches(g, entry, y) && IsJoin(g, x, y, z)
      ==> z in r
  }

  /** `r` absorbs the frontier of every reachable block of `defs` and `r`. */
  ghost predicate FrontierClosed(g: Graph, entry: nat, defs: set<nat>, r: set<nat>) {
    forall x: nat, y: nat :: x in defs + r && Reaches(g, entry, x) && InFrontier(g, entry, x, y) ==> y in r
  }

  ghost predicate EntryHasNoPred(g: Graph, entry: nat) {
    forall p: nat :: Edge(g, p, entry) ==> !Reaches(g, entry, p)
  }

  /** Walking a path, some block of it that is `x` or in the closure dominates
      the end; unless it is in the closure, `x` itself strictly dominates
      everything after the start. */
  lemma {:induction false} DominatorAlong(g: Graph, entry: nat, defs: set<nat>, r: set<nat>, p: seq<nat>)
    returns (i: nat)
    requires WellFormed(g) && IsPath(g, p) && Reaches(g, entry, p[0]) && p[0] in defs + r
    requires FrontierClosed(g, entry, defs, r)
    ensures i < |p| && Paths.Dominates(g, entry, p[i], p[|p| - 1])
    ensures p[i] in r || (i == 0 && (|p| > 1 ==> p[0] != p[|p| - 1]))
    decreases |p|
  {
    if |p| == 1 {
      i := 0;
      forall path | PathFromTo(g, path, entry, p[0]) ensures p[0] in path { assert path[|path| - 1] == p[0]; }
    } else {
      var k := |p| - 2;
      PathPrefix(g, p, k);
      i := DominatorAlong(g, entry, defs, r, p[..k + 1]);
      assert p[..k + 1][i] == p[i];
      assert Edge(g, p[k], p[k + 1]);
      ReachesAlong(g, entry, p, i);
      ReachesAlong(g, entry, p, k);
      if !(Paths.Dominates(g, entry, p[i], p[k + 1]) && p[i] != p[k + 1]) {
        assert IsDominatedPred(g, entry, p[i], p[k + 1], p[k]);
        assert InFrontier(g, entry, p[i], p[k + 1]);
        i := k + 1;
        forall path | PathFromTo(g, path, entry, p[i]) ensures p[i] in path { assert path[|path| - 1] == p[i]; }
      }
    }
  }

  /** A dominator of a path's end that is off the path dominates its blocks. */
  lemma DominatorOffPath(g: Graph, entry: nat, d: nat, q: seq<nat>, j: nat)
    requires WellFormed(g) && IsPath(g, q) && j < |q| && d !in q
    requires Paths.Dominates(g, entry, d, q[|q| - 1])
    ensures Paths.Dominates(g, entry, d, q[j])
  {
    PathSuffix(g, q, j);
    forall path | PathFromTo(g, path, entry, q[j]) ensures d in path {
      PathJoin(g, path, q[j..], entry, q[j], q[|q| - 1]);
      assert d in path + q[j..][1..];
      assert forall x :: x in q[j..][1..] ==> x in q;
    }
  }

  /** Joins are absorbed: the placement is complete. */
  lemma ClosureAbsorbsJoin(g: Graph, t: Tree, defs: set<nat>, r: set<nat>, p: seq<nat>, q: seq<nat>,
                           x: nat, y: nat, z: nat)
    requires WellFormed(g) && IsDominatorTree(g, t) && FrontierClosed(g, t.entry, defs, r)
    requires x in defs + r && y in defs + r && x != y
    requires Reaches(g, t.entry, x) && Reaches(g, t.entry, y)
    requires Converge(g, p, q, x, y, z)
    ensures z in r
  {
    hide IsDominatorTree, FrontierClosed, Paths.Dominates;
    var i := DominatorAlong(g, t.entry, defs, r, p);
    var j := DominatorAlong(g, t.entry, defs, r, q);
    if p[i] != z && q[j] != z {
      assert p[i] !in q by {
        forall k | 0 <= k < |q| ensures q[k] != p[i] { }
      }
      assert q[j] !in p by {
        forall k | 0 <= k < |p| ensures p[k] != q[j] { }
      }
      DominatorOffPath(g, t.entry, p[i], q, j);
      DominatorOffPath(g, t.entry, q[j], p, i);
      MutualDominance(g, t, p, q, i, j);
    }
  }

  lemma MutualDominance(g: Graph, t: Tree, p: seq<nat>, q: seq<nat>, i: nat, j: nat)
    requires WellFormed(g) && IsDominatorTree(g, t) && IsPath(g, p) && IsPath(g, q) && i < |p| && j < |q|
    requires Reaches(g, t.entry, p[0]) && Reaches(g, t.entry, q[0])
    requires Paths.Dominates(g, t.entry, p[i], q[j]) && Paths.Dominates(g, t.entry, q[j], p[i])
    ensures p[i] == q[j]
  {
    ReachesAlong(g, t.entry, p, i);
    ReachesAlong(g, t.entry, q, j);
    ReachableIsProcessed(g, t, p[i]);
    ReachableIsProcessed(g, t, q[j]);
    DominatesIffAnc(g, t, p[i], q[j]);
    DominatesIffAnc(g, t, q[j], p[i]);
    AncFacts(t, p[i], q[j]);
    AncFacts(t, q[j], p[i]);
  }

  /** A closed set of frontiers is closed under joins. */
  lemma FrontierClosedIsJoinClosed(g: Graph, t: Tree, defs: set<nat>, r: set<nat>)
    requires WellFormed(g) && IsDominatorTree(g, t) && FrontierClosed(g, t.entry, defs, r)
    ensures JoinClosed(g, t.entry, defs, r)
  {
    forall x: nat, y: nat, z: nat |
      x in defs + r && y in defs + r && Reaches(g, t.entry, x) && Reaches(g, t.entry, y) && IsJoin(g, x, y, z)
      ensures z in r
    {
      var p, q :| Converge(g, p, q, x, y, z);
      ClosureAbsorbsJoin(g, t, defs, r, p, q, x, y, z);
    }
  }

  /** Cut a path at the last visit of one of its blocks. */
  lemma {:induction false} LastVisit(g: Graph, p: seq<nat>, b: nat) returns (k: nat)
    requires WellFormed(g) && IsPath(g, p) && b in p
    ensures k < |p| && p[k] == b && b !in p[k + 1..]
    decreases |p|
  {
    k := |p| - 1;
    while p[k] != b
      invariant k < |p| && b !in p[k + 1..]
      invariant exists m :: 0 <= m <= k && p[m] == b
      decreases k
    {
      assert p[k..] == [p[k]] + p[k + 1..];
      k := k - 1;
    }
  }

  lemma FirstVisit(g: Graph, p: seq<nat>, b: nat) returns (k: nat)
    requires IsPath(g, p) && b in p
    ensures k < |p| && p[k] == b && b !in p[..k]
  {
    k := 0;
    while p[k] != b
      invariant k < |p| && b !in p[..k]
      invariant exists m :: k <= m < |p| && p[m] == b
      decreases |p| - k
    {
      assert p[..k + 1] == p[..k] + [p[k]];
      k := k + 1;
    }
  }

  /** A frontier block of `b` is a join of a path from the entry and one from `b`. */
  lemma FrontierIsJoin(g: Graph, entry: nat, b: nat, y: nat)
    requires WellFormed(g) && entry < |g| && EntryHasNoPred(g, entry) && Reaches(g, entry, b)
    requires InFrontier(g, entry, b, y)
    ensures IsJoin(g, b, entry, y)
  {
    var p: nat :| IsDominatedPred(g, entry, b, y, p);
    assert y != entry;
    var main :| PathFromTo(g, main, entry, p);
    assert b in main;
    var k := LastVisit(g, main, b);
    PathSuffix(g, main, k);
    var own := main[k..] + [y];
    PathExtend(g, main[k..], b, p, y);
    var other := AvoidingPath(g, entry, b, y);
    EntryFrontierEmpty(g, entry, y);
    forall i | 0 <= i < |own| - 1 ensures Paths.Dominates(g, entry, b, own[i]) {
      DominatesSuffix(g, entry, main, b, p, k, k + i);
    }
    forall j | 0 <= j < |other| - 1 ensures !Paths.Dominates(g, entry, b, other[j]) {
      PathPrefix(g, other, j);
      assert other[..|other| - 1][..j + 1] == other[..j + 1];
    }
    assert Converge(g, own, other, b, entry, y);
  }

  lemma EntryFrontierEmpty(g: Graph, entry: nat, y: nat)
    requires EntryHasNoPred(g, entry)
    ensures !InFrontier(g, entry, entry, y)
  {
    assert Paths.Dominates(g, entry, entry, y) by {
      forall p | PathFromTo(g, p, entry, y) ensures entry in p { assert p[0] == entry; }
    }
  }

  /** A path to `y` that meets `b` at its end at most. */
  lemma AvoidingPath(g: Graph, entry: nat, b: nat, y: nat) returns (q: seq<nat>)
    requires WellFormed(g) && InFrontier(g, entry, b, y) && y != entry
    ensures PathFromTo(g, q, entry, y) && |q| > 1 && b !in q[..|q| - 1]
  {
    if b == y {
      var p: nat :| IsDominatedPred(g, entry, b, y, p);
      var w :| PathFromTo(g, w, entry, p);
      PathExtend(g, w, entry, p, y);
      var k := FirstVisit(g, w + [y], y);
      PathPrefix(g, w + [y], k);
      q := (w + [y])[..k + 1];
      assert q[..|q| - 1] == (w + [y])[..k];
    } else {
      q :| PathFromTo(g, q, entry, y) && b !in q;
    }
  }

  /** On the last stretch from `b` to a block it dominates, `b` dominates
      everything. */
  lemma DominatesSuffix(g: Graph, entry: nat, main: seq<nat>, b: nat, p: nat, k: nat, i: nat)
    requires WellFormed(g) && PathFromTo(g, main, entry, p) && Paths.Dominates(g, entry, b, p)
    requires k <= i < |main| && main[k] == b && b !in main[k + 1..]
    ensures Paths.Dominates(g, entry, b, main[i])
  {
    forall path | PathFromTo(g, path, entry, main[i]) ensures b in path {
      if i == k {
        assert path[|path| - 1] == b;
      } else {
        PathSuffix(g, main, i);
        PathJoin(g, path, main[i..], entry, main[i], p);
        assert b in path + main[i..][1..];
        assert forall x :: x in main[i..][1..] ==> x in main[k + 1..];
      }
    }
  }

  /** With the entry among the definitions, a set closed under joins already
      contains every frontier: no parameter is placed in vain. */
  lemma JoinClosedIsFrontierClosed(g: Graph, entry: nat, defs: set<nat>, r: set<nat>)
    requires WellFormed(g) && entry < |g| && EntryHasNoPred(g, entry) && entry in defs
    requires JoinClosed(g, entry, defs, r)
    ensures FrontierClosed(g, entry, defs, r)
  {
    assert Reaches(g, entry, entry) by { assert PathFromTo(g, [entry], entry, entry); }
    forall x: nat, y: nat | x in defs + r && Reaches(g, entry, x) && InFrontier(g, entry, x, y) ensures y in r {
      FrontierIsJoin(g, entry, x, y);
    }
  }

  /** The computed placement is exactly the least set closed under joins. */
  lemma IteratedIsLeastJoinClosure(g: Graph, t: Tree, df: seq<seq<nat>>, defs: seq<nat>, r: set<nat>, join: bool)
    requires WellFormed(g) && IsDominatorTree(g, t) && EntryHasNoPred(g, t.entry) && t.entry in defs
    requires |df| == |g|
    requires forall b: nat, y: nat :: b < |g| ==> (y in df[b] <==> Computed(g, Some(t.entry), join, b, y))
    requires ClosedUnder(df, defs, r)
    requires forall r': set<nat> :: ClosedUnder(df, defs, r') ==> r <= r'
    ensures JoinClosed(g, t.entry, (set d | d in defs), r)
    ensures forall r': set<nat> :: JoinClosed(g, t.entry, (set d | d in defs), r') ==> r <= r'
  {
    var ds := set d | d in defs;
    ExactIffEntryHasNoPred(g, t.entry, join);
    assert FrontierClosed(g, t.entry, ds, r) by {
      forall x: nat, y: nat | x in ds + r && Reaches(g, t.entry, x) && InFrontier(g, t.entry, x, y) ensures y in r {
        ReachableIsProcessed(g, t, x);
        assert y in df[x];
      }
    }
    FrontierClosedIsJoinClosed(g, t, ds, r);
    forall r': set<nat> | JoinClosed(g, t.entry, ds, r') ensures r <= r' {
      JoinClosedIsFrontierClosed(g, t.entry, ds, r');
      forall x: nat, y: nat | x < |df| && (x in defs || x in r') && y in df[x] ensures y in r' { }
      assert ClosedUnder(df, defs, r');
    }
  }
}
