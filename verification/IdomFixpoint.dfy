/** The Cooper-Harvey-Kennedy loop: why one reverse-postorder pass only ever
    moves links up the tree (so the passes stop), and what the last, unchanging
    pass has established. */
module IdomFixpoint {
  import opened Wrappers
  import opened Paths
  import opened DomTree
  import opened DepthFirst

  /** `z` is on the chain of every processed predecessor of `b`. */
  ghost predicate CommonAbove(g: Graph, t: Tree, b: nat, z: nat)
    requires t.Ok()
  {
    forall q: nat :: t.Has(q) && Edge(g, q, b) ==> t.Anc(z, q)
  }

  /** The link of `b` is on the chain of each of its predecessors numbered
      below it, and nothing common to all predecessors lies off its chain. */
  ghost predicate Settled(g: Graph, t: Tree, b: nat)
    requires t.Ok()
  {
    && t.Has(b) && b != t.entry
    && (forall z: nat :: CommonAbove(g, t, b, z) ==> t.Anc(z, t.Up(b)))
    && (forall q: nat :: t.Has(q) && Edge(g, q, b) && t.num[q] < t.num[b] ==> t.Anc(t.Up(b), q))
  }

  ghost predicate SettledTo(g: Graph, rpo: seq<nat>, t: Tree, i: nat)
    requires t.Ok()
  {
    forall j :: 0 < j < i && j < |rpo| ==> Settled(g, t, rpo[j])
  }

  ghost predicate OnlyEntry(t: Tree) {
    forall x: nat :: t.Has(x) ==> x == t.entry
  }

  /** Between passes: nothing but the entry is processed yet, or every block
      is settled. */
  ghost predicate BetweenPasses(g: Graph, rpo: seq<nat>, t: Tree) {
    && t.Ok() && AboveTruth(g, t) && InRpo(rpo, t)
    && (OnlyEntry(t) || SettledTo(g, rpo, t, |rpo|))
  }

  ghost predicate InRpo(rpo: seq<nat>, t: Tree) {
    forall x: nat :: t.Has(x) ==> x in rpo
  }

  /** For blocks numbered below `i`, already revisited in this pass: whatever
      the chain of `x` kept of the old chain above `c`, the chain of `c` has
      kept too. */
  ghost predicate Aligned(s: Tree, t: Tree, i: nat)
    requires SameShape(s, t)
  {
    forall x: nat, c: nat, z: nat ::
      s.Has(x) && t.Has(x) && t.num[x] < i && s.Anc(c, x) && s.Has(c) && t.Has(c) && t.Anc(z, x) && s.Anc(z, c)
      ==> t.Anc(z, c)
  }

  /** Inside a pass that started from `s` and has revisited numbers below `i`. */
  ghost predicate InPass(g: Graph, rpo: seq<nat>, s: Tree, t: Tree, i: nat) {
    && BetweenPasses(g, rpo, s)
    && SameShape(s, t) && Shrunk(s, t)
    && |s.idom| == |t.idom|
    && (forall x: nat :: x < |t.idom| && t.num[x] >= i ==> t.idom[x] == s.idom[x])
    && AboveTruth(g, t) && InRpo(rpo, t)
    && Aligned(s, t, i)
    && SettledTo(g, rpo, t, i)
  }

  /** `v` is the meet of the chains of `b`'s processed predecessors. */
  ghost predicate IsMeet(g: Graph, t: Tree, b: nat, v: nat)
    requires t.Ok()
  {
    t.Has(v) && forall z: nat :: t.Anc(z, v) <==> CommonAbove(g, t, b, z)
  }

  lemma PassStarts(g: Graph, rpo: seq<nat>, s: Tree)
    requires BetweenPasses(g, rpo, s)
    ensures InPass(g, rpo, s, s, 0) && InPass(g, rpo, s, s, 1)
  {
    forall x: nat, c: nat, z: nat | s.Has(x) && s.num[x] < 1 && s.Anc(c, x) && s.Anc(z, x) && s.Has(c) && s.Anc(z, c)
      ensures s.Anc(z, c) { }
  }

  lemma PassEnds(g: Graph, rpo: seq<nat>, s: Tree, t: Tree)
    requires InPass(g, rpo, s, t, |rpo|)
    ensures BetweenPasses(g, rpo, t)
  { }

  /** The block numbered `i` has a processed predecessor below it, which
      carries the meet. */
  lemma MeetBelow(g: Graph, rpo: seq<nat>, s: Tree, t: Tree, i: nat, v: nat) returns (q: nat)
    requires IsRpo(g, s.entry, rpo, s.num) && InPass(g, rpo, s, t, i) && 0 < i < |rpo|
    requires IsMeet(g, t, rpo[i], v)
    ensures t.Has(q) && t.num[q] < i && Edge(g, q, rpo[i]) && t.Has(v) && t.Anc(v, q) && t.num[v] <= t.num[q]
  {
    assert HasEarlierPred(g, rpo, s.num, i);
    var j: nat :| j < i && Edge(g, rpo[j], rpo[i]);
    q := rpo[j];
    assert t.Has(q) by { if j > 0 { assert Settled(g, t, rpo[j]); } }
    assert CommonAbove(g, t, rpo[i], v);
    AncFacts(t, v, q);
  }

  /** What the previous pass left for the block numbered `i`: its meet is
      common to all old chains, and its old link was on `q`'s old chain. */
  lemma OldLink(g: Graph, rpo: seq<nat>, s: Tree, t: Tree, i: nat, v: nat, q: nat)
    requires IsRpo(g, s.entry, rpo, s.num) && InPass(g, rpo, s, t, i) && 0 < i < |rpo|
    requires IsMeet(g, t, rpo[i], v) && t.Has(rpo[i]) && t.num[rpo[i]] == i && rpo[i] != s.entry
    requires t.Has(q) && t.num[q] < i && Edge(g, q, rpo[i])
    ensures t.idom[rpo[i]] == s.idom[rpo[i]] && s.Has(rpo[i]) && s.Has(q)
    ensures s.Anc(v, s.Up(rpo[i])) && s.Anc(s.Up(rpo[i]), q)
  {
    var b := rpo[i];
    assert s.Has(b) && !OnlyEntry(s) && Settled(g, s, b);
    forall p: nat | s.Has(p) && Edge(g, p, b) ensures s.Anc(v, p) {
      assert t.Anc(v, v) && t.Anc(v, p);
    }
    assert CommonAbove(g, s, b, v);
    assert s.Has(q) by {
      var j :| 0 <= j < |rpo| && rpo[j] == q;
      if j > 0 { assert Settled(g, s, rpo[j]); }
    }
  }

  lemma UseAligned(s: Tree, t: Tree, i: nat, x: nat, c: nat, z: nat)
    requires SameShape(s, t) && Shrunk(s, t) && Aligned(s, t, i)
    requires s.Has(x) && t.Has(x) && t.num[x] < i && s.Anc(c, x) && t.Anc(z, x) && s.Has(c) && s.Anc(z, c)
    ensures t.Has(c) && t.Anc(z, c)
  { }

  /** A revisit never moves a link off its old chain. */
  lemma MovesUp(g: Graph, rpo: seq<nat>, s: Tree, t: Tree, i: nat, v: nat)
    requires IsRpo(g, s.entry, rpo, s.num) && InPass(g, rpo, s, t, i) && 0 < i < |rpo|
    requires IsMeet(g, t, rpo[i], v) && t.Has(rpo[i]) && rpo[i] != s.entry
    ensures s.Has(rpo[i]) && t.idom[rpo[i]] == s.idom[rpo[i]] && t.Anc(v, t.Up(rpo[i]))
  {
    hide AboveTruth, SettledTo, IsMeet, Aligned;
    var q := MeetBelow(g, rpo, s, t, i, v);
    OldLink(g, rpo, s, t, i, v, q);
    UseAligned(s, t, i, q, s.Up(rpo[i]), v);
  }

  lemma {:induction false} DominationCarriesUp(g: Graph, t: Tree, d: nat, p: nat, v: nat)
    requires t.Ok() && AboveTruth(g, t) && t.Has(p) && t.Anc(v, p) && t.Has(v) && t.Anc(d, v)
    requires Dominates(g, t.entry, d, p)
    ensures Dominates(g, t.entry, d, v)
    decreases t.num[p]
  {
    if v != p {
      AncFacts(t, v, p);
      AncFacts(t, d, v);
      DominationCarriesUp(g, t, d, t.Up(p), v);
    }
  }

  /** Setting the link of the block numbered `i` to the meet of its
      predecessors' chains. */
  lemma PassStep(g: Graph, rpo: seq<nat>, s: Tree, t: Tree, i: nat, v: nat, u: Tree)
    requires WellFormed(g) && IsRpo(g, s.entry, rpo, s.num) && |g| == |s.idom|
    requires InPass(g, rpo, s, t, i) && 0 < i < |rpo| && IsMeet(g, t, rpo[i], v)
    requires u == t.(idom := t.idom[rpo[i] := Some(v)])
    ensures InPass(g, rpo, s, u, i + 1) && u.Ok() && t.Has(v) && t.num[v] < i
    ensures t.Has(rpo[i]) ==> t.num[v] <= t.num[t.Up(rpo[i])]
  {
    hide InPass, AboveTruth, SettledTo, Aligned, Shrunk, IsRpo, InRpo;
    StepOk(g, rpo, s, t, i, v, u);
    StepShrinks(g, rpo, s, t, i, v, u);
    StepKeepsBelow(g, rpo, s, t, i, v, u);
    StepAboveTruth(g, rpo, s, t, i, v, u);
    StepAligned(g, rpo, s, t, i, v, u);
    StepSettled(g, rpo, s, t, i, v, u);
    StepAssembled(g, rpo, s, t, i, v, u);
    if t.Has(rpo[i]) {
      MovesUp(g, rpo, s, t, i, v);
      AncFacts(t, v, t.Up(rpo[i]));
    }
  }

  lemma StepOk(g: Graph, rpo: seq<nat>, s: Tree, t: Tree, i: nat, v: nat, u: Tree)
    requires IsRpo(g, s.entry, rpo, s.num) && |g| == |s.idom|
    requires InPass(g, rpo, s, t, i) && 0 < i < |rpo| && IsMeet(g, t, rpo[i], v)
    requires u == t.(idom := t.idom[rpo[i] := Some(v)])
    ensures Stepping(g, rpo, s, t, i, v, u) && SameShape(t, u) && SameShape(s, u)
  {
    hide AboveTruth, SettledTo, Aligned, Shrunk, IsMeet;
    var q := MeetBelow(g, rpo, s, t, i, v);
    NumberOf(g, rpo, s, i);
    forall x: nat | t.Has(x) && t.num[x] == i ensures x == rpo[i] {
      InRpoInjective(g, rpo, s.entry, s.num, x, rpo[i]);
    }
    LinkKeepsOk(t, rpo[i], v);
  }

  lemma LinkKeepsOk(t: Tree, b: nat, v: nat)
    requires t.Ok() && b < |t.idom| && b != t.entry && t.Has(v) && t.num[v] < t.num[b]
    requires forall x: nat :: t.Has(x) && t.num[x] == t.num[b] ==> x == b
    ensures t.(idom := t.idom[b := Some(v)]).Ok()
  {
    var u := t.(idom := t.idom[b := Some(v)]);
    forall x: nat ensures u.LinkOk(x) {
      assert t.LinkOk(x);
    }
  }

  lemma InRpoInjective(g: Graph, rpo: seq<nat>, entry: nat, num: seq<nat>, x: nat, y: nat)
    requires IsRpo(g, entry, rpo, num)
    ensures x in rpo && y in rpo && x < |num| && y < |num| && num[x] == num[y] ==> x == y
  { }

  lemma StepAssembled(g: Graph, rpo: seq<nat>, s: Tree, t: Tree, i: nat, v: nat, u: Tree)
    requires Stepping(g, rpo, s, t, i, v, u) && SameShape(s, u) && Shrunk(s, u)
    requires AboveTruth(g, u) && InRpo(rpo, u) && Aligned(s, u, i + 1) && SettledTo(g, rpo, u, i + 1)
    ensures InPass(g, rpo, s, u, i + 1)
  {
    hide AboveTruth, SettledTo, Aligned, Shrunk;
    NumberOf(g, rpo, s, i);
  }

  lemma NumberOf(g: Graph, rpo: seq<nat>, s: Tree, i: nat)
    requires IsRpo(g, s.entry, rpo, s.num) && 0 < i < |rpo|
    ensures rpo[i] < |s.num| && s.num[rpo[i]] == i && rpo[i] != s.entry
  {
    assert s.num[rpo[0]] == 0;
  }

  /** The situation each of the step lemmas below is about. */
  ghost predicate Stepping(g: Graph, rpo: seq<nat>, s: Tree, t: Tree, i: nat, v: nat, u: Tree) {
    && IsRpo(g, s.entry, rpo, s.num) && |g| == |s.idom|
    && InPass(g, rpo, s, t, i) && 0 < i < |rpo| && IsMeet(g, t, rpo[i], v)
    && u == t.(idom := t.idom[rpo[i] := Some(v)]) && u.Ok() && t.num[v] < i
    && rpo[i] != t.entry
  }

  lemma StepShrinks(g: Graph, rpo: seq<nat>, s: Tree, t: Tree, i: nat, v: nat, u: Tree)
    requires Stepping(g, rpo, s, t, i, v, u)
    ensures Shrunk(t, u) && Shrunk(s, u)
  {
    var b := rpo[i];
    forall x: nat, z: nat | t.Has(x)
      ensures u.Has(x) && (u.Anc(z, x) ==> t.Anc(z, x))
    {
      if u.Anc(z, x) {
        if t.Has(b) {
          MovesUp(g, rpo, s, t, i, v);
          MoveUpShrinks(t, u, b, z, x);
        } else {
          FirstLinkKeeps(t, u, b, z, x);
        }
      }
    }
  }

  lemma StepKeepsBelow(g: Graph, rpo: seq<nat>, s: Tree, t: Tree, i: nat, v: nat, u: Tree)
    requires Stepping(g, rpo, s, t, i, v, u)
    ensures forall x: nat, z: nat :: t.Has(x) && t.num[x] < i ==> u.Has(x) && (u.Anc(z, x) <==> t.Anc(z, x))
  {
    assert SameBelow(t, u, i) by {
      forall x: nat | x < |u.idom| && u.num[x] < i ensures t.idom[x] == u.idom[x] { assert x != rpo[i]; }
    }
    forall x: nat, z: nat | t.Has(x) && t.num[x] < i ensures u.Has(x) && (u.Anc(z, x) <==> t.Anc(z, x)) {
      SameBelowAnc(t, u, i, z, x);
    }
  }

  lemma StepAboveTruth(g: Graph, rpo: seq<nat>, s: Tree, t: Tree, i: nat, v: nat, u: Tree)
    requires WellFormed(g) && Stepping(g, rpo, s, t, i, v, u)
    ensures AboveTruth(g, u) && InRpo(rpo, u)
  {
    var b := rpo[i];
    forall d: nat | d != b && Dominates(g, t.entry, d, b) ensures Dominates(g, t.entry, d, v) {
      forall p: nat | t.Has(p) && Edge(g, p, b) ensures t.Anc(d, p) {
        StrictDominatorOfPred(g, t.entry, d, b, p);
        DominatorOnChain(g, t, d, p);
      }
      assert CommonAbove(g, t, b, d) && t.Anc(d, v);
      var q := MeetBelow(g, rpo, s, t, i, v);
      StrictDominatorOfPred(g, t.entry, d, b, q);
      DominationCarriesUp(g, t, d, q, v);
    }
    forall x: nat, d: nat | u.Has(x) && x != u.entry && d != x && Dominates(g, u.entry, d, x)
      ensures Dominates(g, u.entry, d, u.Up(x))
    {
      if x != b { assert u.Up(x) == t.Up(x); }
    }
  }

  lemma StepAligned(g: Graph, rpo: seq<nat>, s: Tree, t: Tree, i: nat, v: nat, u: Tree)
    requires Stepping(g, rpo, s, t, i, v, u)
    requires forall x: nat, z: nat :: t.Has(x) && t.num[x] < i ==> u.Has(x) && (u.Anc(z, x) <==> t.Anc(z, x))
    ensures Aligned(s, u, i + 1)
  {
    var b := rpo[i];
    forall x: nat, c: nat, z: nat |
      s.Has(x) && u.Has(x) && u.num[x] < i + 1 && s.Anc(c, x) && s.Has(c) && u.Has(c) && u.Anc(z, x) && s.Anc(z, c)
      ensures u.Anc(z, c)
    {
      AncFacts(s, c, x);
      AncFacts(s, z, c);
      if c == x {
      } else if u.num[x] < i {
        assert t.Has(x) && t.Has(c);
        assert t.Anc(z, c);
      } else {
        assert x == b;
        assert t.Has(b);
        MovesUp(g, rpo, s, t, i, v);
        var up := t.Up(b);
        assert s.Anc(c, up) && z != b;
        assert u.Anc(z, v);
        assert t.Anc(z, v);
        AncTrans(t, z, v, up);
        assert t.num[up] < i;
        assert s.Has(up) && t.Has(c);
        assert t.Anc(z, c);
      }
    }
  }

  lemma StepSettled(g: Graph, rpo: seq<nat>, s: Tree, t: Tree, i: nat, v: nat, u: Tree)
    requires Stepping(g, rpo, s, t, i, v, u) && SameShape(t, u) && Shrunk(t, u)
    requires forall x: nat, z: nat :: t.Has(x) && t.num[x] < i ==> u.Has(x) && (u.Anc(z, x) <==> t.Anc(z, x))
    ensures SettledTo(g, rpo, u, i + 1)
  {
    forall j | 0 < j < i + 1 && j < |rpo| ensures Settled(g, u, rpo[j]) {
      var b := rpo[j];
      assert t.num[b] == j;
      var link := u.Up(b);
      if j < i {
        assert Settled(g, t, b);
        assert link == t.Up(b) && t.num[link] < i;
      } else {
        assert link == v;
        assert t.Anc(v, v) && CommonAbove(g, t, b, v);
      }
      forall z: nat | CommonAbove(g, u, b, z) ensures u.Anc(z, link) {
        forall q: nat | t.Has(q) && Edge(g, q, b) ensures t.Anc(z, q) { assert u.Anc(z, q); }
        assert CommonAbove(g, t, b, z);
        assert t.Anc(z, link);
      }
      forall q: nat | u.Has(q) && Edge(g, q, b) && u.num[q] < u.num[b] ensures u.Anc(link, q) {
        assert q != rpo[i];
        assert t.Has(q) && t.Anc(link, q);
      }
    }
  }

  // -------------------------------------------------------------- the measure

  /** The sum over the first `k` blocks of the number of their link
      (`|rpo|` for a block without one): what every changing pass lowers. */
  ghost function LinkSum(rpo: seq<nat>, t: Tree, k: nat): nat
    requires t.Ok() && k <= |rpo|
  {
    if k == 0 then 0
    else LinkSum(rpo, t, k - 1) + (if t.Has(rpo[k - 1]) then t.num[t.Up(rpo[k - 1])] else |rpo|)
  }

  lemma {:induction false} LinkSumDrops(rpo: seq<nat>, t: Tree, u: Tree, i: nat, k: nat)
    requires SameShape(t, u) && i < |rpo| && k <= |rpo|
    requires forall j :: 0 <= j < |rpo| ==> rpo[j] < |t.num| && t.num[rpo[j]] == j
    requires u.Has(rpo[i]) && u.idom == t.idom[rpo[i] := u.idom[rpo[i]]]
    requires u.num[u.Up(rpo[i])] < if t.Has(rpo[i]) then t.num[t.Up(rpo[i])] else |rpo|
    ensures if i < k then LinkSum(rpo, u, k) < LinkSum(rpo, t, k) else LinkSum(rpo, u, k) == LinkSum(rpo, t, k)
  {
    if k > 0 {
      LinkSumDrops(rpo, t, u, i, k - 1);
      assert k - 1 != i ==> rpo[k - 1] != rpo[i];
    }
  }

  // -------------------------------------------------------------- the methods

  /** Walk two fingers up to the nearest block the two chains share. */
  method Intersect(idom: seq<Option<nat>>, num: seq<nat>, a0: nat, b0: nat, ghost t: Tree) returns (a: nat)
    requires t.Ok() && idom == t.idom && num == t.num && t.Has(a0) && t.Has(b0)
    ensures t.Has(a)
    ensures forall z: nat :: t.Anc(z, a) <==> t.Anc(z, a0) && t.Anc(z, b0)
  {
    a := a0;
    var b := b0;
    while a != b
      invariant t.Has(a) && t.Has(b)
      invariant forall z: nat :: (t.Anc(z, a) && t.Anc(z, b)) <==> (t.Anc(z, a0) && t.Anc(z, b0))
      decreases num[a] + num[b]
    {
      while num[a] > num[b]
        invariant t.Has(a) && t.Has(b)
        invariant forall z: nat :: (t.Anc(z, a) && t.Anc(z, b)) <==> (t.Anc(z, a0) && t.Anc(z, b0))
        decreases num[a]
      {
        StepFinger(t, a, b);
        a := idom[a].value;
      }
      while num[b] > num[a]
        invariant t.Has(a) && t.Has(b)
        invariant forall z: nat :: (t.Anc(z, a) && t.Anc(z, b)) <==> (t.Anc(z, a0) && t.Anc(z, b0))
        decreases num[b]
      {
        StepFinger(t, b, a);
        b := idom[b].value;
      }
    }
  }

  /** The finger with the larger number is not on the other's chain. */
  lemma StepFinger(t: Tree, a: nat, b: nat)
    requires t.Ok() && t.Has(a) && t.Has(b) && t.num[a] > t.num[b]
    ensures a != t.entry && t.idom[a].value == t.Up(a)
    ensures forall z: nat :: (t.Anc(z, t.Up(a)) && t.Anc(z, b)) <==> (t.Anc(z, a) && t.Anc(z, b))
  {
    EntryIsAnc(t, b);
    AncFacts(t, t.entry, b);
    assert t.num[t.entry] <= t.num[b];
    forall z: nat | t.Anc(z, b) ensures z != a { AncFacts(t, z, b); }
  }

  /** `z` is on the chain of every processed block among the first `k`. */
  ghost predicate OnAll(t: Tree, preds: seq<nat>, k: nat, z: nat)
    requires t.Ok() && k <= |preds|
  {
    k == 0 || (OnAll(t, preds, k - 1, z) && (t.Has(preds[k - 1]) ==> t.Anc(z, preds[k - 1])))
  }

  /** `meet` is the meet of the chains of the processed blocks among the
      first `k` predecessors. */
  ghost predicate MeetOfPrefix(t: Tree, preds: seq<nat>, k: nat, meet: Option<nat>)
    requires t.Ok() && k <= |preds|
  {
    match meet
    case None => forall j :: 0 <= j < k ==> !t.Has(preds[j])
    case Some(m) =>
      && t.Has(m) && (exists j :: 0 <= j < k && t.Has(preds[j]))
      && forall z: nat :: t.Anc(z, m) <==> OnAll(t, preds, k, z)
  }

  lemma {:induction false} OnAllIffEach(t: Tree, preds: seq<nat>, k: nat, z: nat)
    requires t.Ok() && k <= |preds|
    ensures OnAll(t, preds, k, z) <==> forall j :: 0 <= j < k && t.Has(preds[j]) ==> t.Anc(z, preds[j])
  {
    if k > 0 { OnAllIffEach(t, preds, k - 1, z); }
  }

  lemma MeetStarts(t: Tree, preds: seq<nat>, k: nat)
    requires t.Ok() && k < |preds| && MeetOfPrefix(t, preds, k, None) && t.Has(preds[k])
    ensures MeetOfPrefix(t, preds, k + 1, Some(preds[k]))
  {
    forall z: nat ensures t.Anc(z, preds[k]) <==> OnAll(t, preds, k + 1, z) {
      OnAllIffEach(t, preds, k, z);
    }
  }

  lemma MeetNarrows(t: Tree, preds: seq<nat>, k: nat, cur: nat, a: nat)
    requires t.Ok() && k < |preds| && MeetOfPrefix(t, preds, k, Some(cur)) && t.Has(preds[k])
    requires t.Has(a) && forall z: nat :: t.Anc(z, a) <==> t.Anc(z, preds[k]) && t.Anc(z, cur)
    ensures MeetOfPrefix(t, preds, k + 1, Some(a))
  {
    forall z: nat ensures t.Anc(z, a) <==> OnAll(t, preds, k + 1, z) {
      assert t.Anc(z, cur) <==> OnAll(t, preds, k, z);
    }
  }

  lemma MeetSkips(t: Tree, preds: seq<nat>, k: nat, meet: Option<nat>)
    requires t.Ok() && k < |preds| && MeetOfPrefix(t, preds, k, meet) && !t.Has(preds[k])
    ensures MeetOfPrefix(t, preds, k + 1, meet)
  {
    if meet.Some? {
      forall z: nat ensures t.Anc(z, meet.value) <==> OnAll(t, preds, k + 1, z) {
        assert t.Anc(z, meet.value) <==> OnAll(t, preds, k, z);
      }
    }
  }

  lemma MeetOfAll(g: Graph, t: Tree, preds: seq<nat>, b: nat, meet: Option<nat>)
    requires t.Ok() && MeetOfPrefix(t, preds, |preds|, meet)
    requires forall q: nat :: q in preds <==> Edge(g, q, b)
    ensures meet.None? <==> forall q: nat :: t.Has(q) ==> !Edge(g, q, b)
    ensures meet.Some? ==> IsMeet(g, t, b, meet.value)
  {
    if meet.Some? {
      forall z: nat ensures t.Anc(z, meet.value) <==> CommonAbove(g, t, b, z) {
        OnAllIffEach(t, preds, |preds|, z);
        if CommonAbove(g, t, b, z) {
          forall j | 0 <= j < |preds| && t.Has(preds[j]) ensures t.Anc(z, preds[j]) { assert preds[j] in preds; }
        }
        if t.Anc(z, meet.value) {
          forall q: nat | t.Has(q) && Edge(g, q, b) ensures t.Anc(z, q) { assert q in preds; }
        }
      }
      var j :| 0 <= j < |preds| && t.Has(preds[j]);
      assert preds[j] in preds;
    } else {
      forall q: nat | t.Has(q) ensures !Edge(g, q, b) { assert q in preds <==> Edge(g, q, b); }
    }
  }

  /** One block's recomputation: the meet over its processed predecessors. */
  method MeetOfPreds(g: Graph, preds: seq<nat>, idom: seq<Option<nat>>, num: seq<nat>, reachable: seq<bool>,
                     b: nat, ghost t: Tree)
    returns (meet: Option<nat>)
    requires t.Ok() && idom == t.idom && num == t.num && |reachable| == |idom| == |g|
    requires forall q: nat :: q in preds <==> Edge(g, q, b)
    requires forall q: nat :: t.Has(q) ==> reachable[q]
    ensures meet.None? <==> forall q: nat :: t.Has(q) ==> !Edge(g, q, b)
    ensures meet.Some? ==> IsMeet(g, t, b, meet.value)
  {
    hide IsMeet, OnAll;
    meet := None;
    for k := 0 to |preds|
      invariant MeetOfPrefix(t, preds, k, meet)
    {
      var p := preds[k];
      assert p in preds && Edge(g, p, b);
      if reachable[p] && idom[p].Some? {
        match meet {
          case None =>
            MeetStarts(t, preds, k);
            meet := Some(p);
          case Some(cur) =>
            var a := Intersect(idom, num, p, cur, t);
            MeetNarrows(t, preds, k, cur, a);
            meet := Some(a);
        }
      } else {
        MeetSkips(t, preds, k, meet);
      }
    }
    MeetOfAll(g, t, preds, b, meet);
  }

  /** What a pass that has changed nothing so far knows about the blocks it
      has revisited. */
  ghost predicate MeetsTo(g: Graph, rpo: seq<nat>, t: Tree, i: nat)
    requires t.Ok()
  {
    forall j :: 0 < j < i && j < |rpo| ==> t.Has(rpo[j]) && rpo[j] != t.entry && IsMeet(g, t, rpo[j], t.Up(rpo[j]))
  }

  lemma FirstTree(g: Graph, entry: nat, rpo: seq<nat>, num: seq<nat>, t: Tree)
    requires entry < |g| && IsRpo(g, entry, rpo, num)
    requires t == Tree(seq(|g|, _ => None)[entry := Some(entry)], num, entry)
    ensures BetweenPasses(g, rpo, t)
  {
    assert forall x: nat :: t.Has(x) ==> x == entry;
    assert rpo[0] in rpo;
  }

  lemma EntryFirst(g: Graph, rpo: seq<nat>, s: Tree, t: Tree, i: nat)
    requires IsRpo(g, s.entry, rpo, s.num) && InPass(g, rpo, s, t, i) && i < |rpo| && rpo[i] == s.entry
    ensures i == 0 && InPass(g, rpo, s, t, 1)
    ensures t.Ok() && MeetsTo(g, rpo, t, 1)
  {
    assert s.num[rpo[0]] == 0 && s.num[rpo[i]] == i;
    forall x: nat, c: nat, z: nat | s.Has(x) && t.Has(x) && t.num[x] < 1 && s.Anc(c, x) && s.Has(c) && t.Has(c)
                                    && t.Anc(z, x) && s.Anc(z, c)
      ensures t.Anc(z, c)
    {
      InRpoInjective(g, rpo, s.entry, s.num, x, s.entry);
      assert x in rpo && s.entry in rpo;
    }
  }

  /** Every later block has a processed predecessor by the time it is visited. */
  lemma SomePredProcessed(g: Graph, rpo: seq<nat>, s: Tree, t: Tree, i: nat)
    requires IsRpo(g, s.entry, rpo, s.num) && InPass(g, rpo, s, t, i) && 0 < i < |rpo|
    ensures exists q: nat :: t.Has(q) && Edge(g, q, rpo[i])
  {
    assert HasEarlierPred(g, rpo, s.num, i);
    var j: nat :| j < i && Edge(g, rpo[j], rpo[i]);
    if j > 0 { assert Settled(g, t, rpo[j]); }
    assert t.Has(rpo[j]);
  }

  lemma LinkSumStep(g: Graph, rpo: seq<nat>, s: Tree, t: Tree, u: Tree, i: nat, v: nat)
    requires IsRpo(g, s.entry, rpo, s.num) && InPass(g, rpo, s, t, i) && 0 < i < |rpo| && |g| == |t.idom|
    requires t.Has(v) && t.num[v] < i && SameShape(t, u)
    requires u == t.(idom := t.idom[rpo[i] := Some(v)]) && u.idom[rpo[i]] != t.idom[rpo[i]]
    requires t.Has(rpo[i]) ==> t.num[v] <= t.num[t.Up(rpo[i])]
    ensures LinkSum(rpo, u, |rpo|) < LinkSum(rpo, t, |rpo|)
  {
    NumberOf(g, rpo, s, i);
    LinkSumDrops(rpo, t, u, i, |rpo|);
  }

  /** Iterate reverse-postorder passes until one changes nothing. */
  method Fixpoint(g: Graph, entry: nat, preds: seq<seq<nat>>, rpo: seq<nat>, num: seq<nat>, reachable: seq<bool>)
    returns (idom: seq<Option<nat>>, ghost t: Tree)
    requires WellFormed(g) && entry < |g| && IsRpo(g, entry, rpo, num)
    requires |preds| == |g| && forall b: nat, q: nat :: b < |g| ==> (q in preds[b] <==> Edge(g, q, b))
    requires |reachable| == |g| && forall b: nat :: b < |g| ==> (reachable[b] <==> Reaches(g, entry, b))
    ensures t == Tree(idom, num, entry) && t.Ok() && |idom| == |g|
    ensures AboveTruth(g, t) && InRpo(rpo, t) && MeetsTo(g, rpo, t, |rpo|)
  {
    hide InPass, BetweenPasses, AboveTruth, IsRpo, MeetsTo, IsMeet, InRpo, LinkSum;
    idom := seq(|g|, _ => None);
    idom := idom[entry := Some(entry)];
    t := Tree(idom, num, entry);
    FirstTree(g, entry, rpo, num, t);
    var changed := true;
    while changed
      invariant t == Tree(idom, num, entry) && |idom| == |g| && t.Ok()
      invariant BetweenPasses(g, rpo, t)
      invariant !changed ==> MeetsTo(g, rpo, t, |rpo|)
      decreases LinkSum(rpo, t, |rpo|), if changed then 1 else 0
    {
      changed := false;
      ghost var s := t;
      PassStarts(g, rpo, s);
      MeetsNone(g, rpo, s);
      var i := 0;
      while i < |rpo|
        invariant i <= |rpo|
        invariant t == Tree(idom, num, entry) && |idom| == |g| && t.Ok()
        invariant InPass(g, rpo, s, t, i)
        invariant !changed ==> t == s && MeetsTo(g, rpo, t, i)
        invariant LinkSum(rpo, t, |rpo|) <= LinkSum(rpo, s, |rpo|)
        invariant changed ==> LinkSum(rpo, t, |rpo|) < LinkSum(rpo, s, |rpo|)
      {
        var b := rpo[i];
        if b == entry {
          EntryFirst(g, rpo, s, t, i);
        } else {
          Visiting(g, rpo, s, t, i, reachable);
          var meet := MeetOfPreds(g, preds[b], idom, num, reachable, b, t);
          ghost var u := Tree(idom[b := meet], num, entry);
          PassStep(g, rpo, s, t, i, meet.value, u);
          if meet != idom[b] {
            LinkSumStep(g, rpo, s, t, u, i, meet.value);
            idom := idom[b := meet];
            changed := true;
            t := u;
          } else {
            assert u == t;
            if !changed { MeetsStep(g, rpo, t, i); }
          }
        }
        i := i + 1;
      }
      PassEnds(g, rpo, s, t);
    }
    Finished(g, rpo, t);
  }

  lemma Finished(g: Graph, rpo: seq<nat>, t: Tree)
    requires BetweenPasses(g, rpo, t)
    ensures AboveTruth(g, t) && InRpo(rpo, t)
  { }

  lemma MeetsNone(g: Graph, rpo: seq<nat>, t: Tree)
    requires t.Ok()
    ensures MeetsTo(g, rpo, t, 0)
  { }

  lemma MeetsStep(g: Graph, rpo: seq<nat>, t: Tree, i: nat)
    requires t.Ok() && 0 < i < |rpo| && MeetsTo(g, rpo, t, i)
    requires t.Has(rpo[i]) && rpo[i] != t.entry && IsMeet(g, t, rpo[i], t.Up(rpo[i]))
    ensures MeetsTo(g, rpo, t, i + 1)
  { }

  /** Visiting a block other than the entry. */
  lemma Visiting(g: Graph, rpo: seq<nat>, s: Tree, t: Tree, i: nat, reachable: seq<bool>)
    requires IsRpo(g, s.entry, rpo, s.num) && InPass(g, rpo, s, t, i) && i < |rpo| && rpo[i] != s.entry
    requires |reachable| == |g| == |t.idom| && forall b: nat :: b < |g| ==> (reachable[b] <==> Reaches(g, t.entry, b))
    ensures i > 0 && rpo[i] < |g|
    ensures forall q: nat :: t.Has(q) ==> reachable[q]
    ensures exists q: nat :: t.Has(q) && Edge(g, q, rpo[i])
  {
    SomePredProcessed(g, rpo, s, t, i);
  }
}
