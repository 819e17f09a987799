/** Immediate-dominator trees in the making: the chains of `idom` links that the
    Cooper-Harvey-Kennedy loop edits, and how one edit changes them. */
module DomTree {
  import opened Wrappers
  import opened Paths

  /** `idom[b]` is the current link of block `b` (`None` while unprocessed) and
      `num` is the reverse-postorder numbering. */
  datatype Tree = Tree(idom: seq<Option<nat>>, num: seq<nat>, entry: nat)
  {
    ghost predicate Has(b: nat) {
      b < |idom| && idom[b].Some?
    }

    ghost predicate LinkOk(b: nat)
      requires |idom| == |num|
    {
      Has(b) && b != entry ==> Has(idom[b].value) && num[idom[b].value] < num[b]
    }

    /** Links go to processed blocks with strictly smaller numbers; the entry
        is its own link. */
    ghost predicate Ok() {
      && |idom| == |num|
      && Has(entry) && idom[entry].value == entry
      && (forall b: nat :: LinkOk(b))
      && (forall a: nat, b: nat :: Has(a) && Has(b) && num[a] == num[b] ==> a == b)
    }

    /** The link of a processed block. */
    ghost function Up(b: nat): (up: nat)
      requires Ok() && Has(b)
      ensures Has(up) && up == idom[b].value && (b != entry ==> num[up] < num[b])
    {
      assert LinkOk(b);
      idom[b].value
    }

    /** `z` lies on the chain of links that starts at `x`. */
    ghost predicate Anc(z: nat, x: nat)
      requires Ok() && Has(x)
      decreases num[x]
    {
      z == x || (x != entry && Anc(z, Up(x)))
    }
  }

  ghost predicate SameShape(s: Tree, t: Tree) {
    s.Ok() && t.Ok() && s.num == t.num && s.entry == t.entry
  }

  lemma {:induction false} AncFacts(t: Tree, z: nat, x: nat)
    requires t.Ok() && t.Has(x) && t.Anc(z, x)
    ensures t.Has(z) && t.num[z] <= t.num[x] && (z != x ==> t.num[z] < t.num[x])
    decreases t.num[x]
  {
    if z != x { AncFacts(t, z, t.Up(x)); }
  }

  lemma {:induction false} AncTrans(t: Tree, y: nat, z: nat, x: nat)
    requires t.Ok() && t.Has(x) && t.Anc(z, x) && t.Has(z) && t.Anc(y, z)
    ensures t.Anc(y, x)
    decreases t.num[x]
  {
    if z != x { AncTrans(t, y, z, t.Up(x)); }
  }

  lemma {:induction false} EntryIsAnc(t: Tree, x: nat)
    requires t.Ok() && t.Has(x)
    ensures t.Anc(t.entry, x)
    decreases t.num[x]
  {
    if x != t.entry { EntryIsAnc(t, t.Up(x)); }
  }

  /** A mapping from one tree's chains to another's: no chain has grown. */
  ghost predicate Shrunk(s: Tree, t: Tree)
    requires SameShape(s, t)
  {
    forall x: nat, z: nat :: s.Has(x) ==> t.Has(x) && (t.Anc(z, x) ==> s.Anc(z, x))
  }

  /** Below a number `k` the two trees have the same links. */
  ghost predicate SameBelow(s: Tree, t: Tree, k: nat)
    requires SameShape(s, t)
  {
    && |s.idom| == |t.idom|
    && forall x: nat :: x < |t.idom| && t.num[x] < k ==> s.idom[x] == t.idom[x]
  }

  lemma {:induction false} SameBelowAnc(s: Tree, t: Tree, k: nat, z: nat, x: nat)
    requires SameShape(s, t) && SameBelow(s, t, k)
    requires s.Has(x) && s.num[x] < k
    ensures t.Has(x) && (s.Anc(z, x) <==> t.Anc(z, x))
    decreases s.num[x]
  {
    if x != s.entry { SameBelowAnc(s, t, k, z, s.Up(x)); }
  }

  /** Moving the link of `b` to a block on its old link's chain only removes
      blocks from chains. */
  lemma {:induction false} MoveUpShrinks(t: Tree, u: Tree, b: nat, z: nat, x: nat)
    requires SameShape(t, u) && t.Has(b) && b != t.entry && u.Has(b)
    requires u.idom == t.idom[b := u.idom[b]]
    requires t.Has(u.Up(b)) && t.Anc(u.Up(b), t.Up(b))
    requires t.Has(x) && u.Anc(z, x)
    ensures t.Anc(z, x)
    decreases t.num[x]
  {
    if z != x {
      if x == b {
        MoveUpShrinks(t, u, b, z, u.Up(b));
        AncTrans(t, z, u.Up(b), t.Up(b));
      } else {
        MoveUpShrinks(t, u, b, z, t.Up(x));
      }
    }
  }

  /** Giving an unprocessed block its first link changes no other chain. */
  lemma {:induction false} FirstLinkKeeps(t: Tree, u: Tree, b: nat, z: nat, x: nat)
    requires SameShape(t, u) && b < |t.idom| && !t.Has(b)
    requires u.idom == t.idom[b := u.idom[b]]
    requires t.Has(x)
    ensures u.Has(x) && (u.Anc(z, x) <==> t.Anc(z, x))
    decreases t.num[x]
  {
    if x != t.entry { FirstLinkKeeps(t, u, b, z, t.Up(x)); }
  }

  // ------------------------------------------------------------------ dominance

  /** The tree never lies above the truth: a strict dominator of a processed
      block dominates the block's link. */
  ghost predicate AboveTruth(g: Graph, t: Tree)
    requires t.Ok()
  {
    forall b: nat, d: nat :: t.Has(b) && b != t.entry && d != b && Dominates(g, t.entry, d, b)
      ==> Dominates(g, t.entry, d, t.Up(b))
  }

  lemma {:induction false} DominatorOnChain(g: Graph, t: Tree, d: nat, b: nat)
    requires t.Ok() && t.entry < |g| && AboveTruth(g, t) && t.Has(b)
    requires Dominates(g, t.entry, d, b)
    ensures t.Anc(d, b)
    decreases t.num[b]
  {
    if b == t.entry {
      DominatesEntry(g, t.entry, d);
    } else if d != b {
      DominatorOnChain(g, t, d, t.Up(b));
    }
  }

  /** Every link is exactly the meet of the chains of the block's reachable
      predecessors: what the loop's last, unchanging pass establishes. */
  ghost predicate MeetsAbove(g: Graph, t: Tree)
    requires t.Ok()
  {
    forall b: nat, q: nat, z: nat :: t.Has(b) && b != t.entry && t.Has(q) && Edge(g, q, b) && t.Anc(z, t.Up(b))
      ==> t.Anc(z, q)
  }

  /** On a tree of meets, a chain's blocks are on every path to its start. */
  lemma {:induction false} ChainOnPath(g: Graph, t: Tree, a: nat, b: nat, p: seq<nat>)
    requires t.Ok() && WellFormed(g) && t.entry < |g| && |g| == |t.idom| && MeetsAbove(g, t)
    requires forall x: nat :: x < |g| && Reaches(g, t.entry, x) ==> t.Has(x)
    requires t.Has(b) && t.Anc(a, b) && PathFromTo(g, p, t.entry, b)
    ensures a in p
    decreases |p|
  {
    if a == b || b == t.entry {
      assert p[|p| - 1] == b;
    } else {
      assert |p| > 1;
      var q := p[|p| - 2];
      PathPrefix(g, p, |p| - 2);
      assert Edge(g, p[|p| - 2], p[|p| - 2 + 1]);
      PathInGraph(g, p, |p| - 2);
      assert Reaches(g, t.entry, q);
      ChainOnPath(g, t, a, q, p[..|p| - 2 + 1]);
    }
  }
}
