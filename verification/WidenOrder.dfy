/** Where the budgets of a widening solver run come from: an order on the values in
    which nothing feeds back but into loop headers. Reducible graphs have one; on an
    irreducible one the solver need not stop. */
module WidenOrder {
  import opened Wrappers
  import opened Paths
  import opened Ir
  import opened SolverSteps
  import opened SolverLeast
  import opened SolverWidens
  import opened DepthFirst
  import opened Dominators

  // --------------------------------------------------------- from an order to budgets

  /** A use of `v` that may run leads only to values after it, or to parameters of loop
      headers. */
  ghost predicate UseForward<D>(p: Problem<D>, ord: seq<nat>, v: nat, i: nat)
    requires v < |ord| && i < |p.f.insts|
  {
    if p.f.insts[i].kind.IsTerminator() then
      forall si: nat, k: nat :: si < EdgeCount(p.f.insts[i].kind) && k < |ParamsOf(p, Target(p.f.insts[i], si))| ==>
        ParamForward(p, ord, v, Target(p.f.insts[i], si), k)
    else
      p.f.insts[i].result.Some? ==> After(ord, v, p.f.insts[i].result.value)
  }

  ghost predicate ParamForward<D>(p: Problem<D>, ord: seq<nat>, v: nat, b: nat, k: nat)
    requires v < |ord| && k < |ParamsOf(p, b)|
  {
    IsHeader(p, b) || After(ord, v, ParamsOf(p, b)[k])
  }

  ghost predicate After(ord: seq<nat>, v: nat, w: nat)
    requires v < |ord|
  {
    w < |ord| ==> ord[v] < ord[w]
  }

  ghost predicate Forward<D>(p: Problem<D>, live: seq<bool>, ord: seq<nat>) {
    && |p.f.uses| == |p.f.values| == |ord|
    && forall v: nat, i: nat :: v < |ord| && i < |p.f.insts| && i in Users(p.f.uses[v]) && MayRun(p, Plan([], live), i) ==>
         UseForward(p, ord, v, i)
  }

  /** Nothing feeds back but into loop headers. */
  ghost predicate HasOrder<D>(p: Problem<D>, live: seq<bool>) {
    exists ord: seq<nat> :: Forward(p, live, ord)
  }

  /** Two plans that agree on everything after `n`. */
  ghost predicate AgreeAfter(a: Plan, b: Plan, ord: seq<nat>, n: nat) {
    |a.cost| == |b.cost| == |ord| && a.live == b.live
    && forall w: nat :: w < |ord| && ord[w] > n ==> a.cost[w] == b.cost[w]
  }

  lemma {:induction false} ParamsCostSame<D>(p: Problem<D>, a: Plan, b: Plan, ord: seq<nat>, v: nat, target: nat, n: nat)
    requires v < |ord| && AgreeAfter(a, b, ord, ord[v]) && n <= |ParamsOf(p, target)|
    requires forall k: nat :: k < |ParamsOf(p, target)| ==> ParamForward(p, ord, v, target, k)
    ensures ParamsCost(p, a, target, n) == ParamsCost(p, b, target, n)
  {
    if n > 0 {
      ParamsCostSame(p, a, b, ord, v, target, n - 1);
      assert ParamForward(p, ord, v, target, n - 1);
    }
  }

  lemma {:induction false} EdgesCostSame<D>(p: Problem<D>, a: Plan, b: Plan, ord: seq<nat>, v: nat, i: nat, n: nat)
    requires v < |ord| && AgreeAfter(a, b, ord, ord[v]) && i < |p.f.insts| && p.f.insts[i].kind.IsTerminator()
    requires UseForward(p, ord, v, i) && n <= EdgeCount(p.f.insts[i].kind)
    ensures EdgesCost(p, a, p.f.insts[i], n) == EdgesCost(p, b, p.f.insts[i], n)
  {
    hide AgreeAfter, ParamForward, ParamsCost;
    if n > 0 {
      EdgesCostSame(p, a, b, ord, v, i, n - 1);
      var target := Target(p.f.insts[i], n - 1);
      ParamsCostSame(p, a, b, ord, v, target, |ParamsOf(p, target)|);
    }
  }

  lemma InstCostSame<D>(p: Problem<D>, a: Plan, b: Plan, ord: seq<nat>, v: nat, i: nat)
    requires v < |ord| && AgreeAfter(a, b, ord, ord[v]) && i < |p.f.insts| && UseForward(p, ord, v, i)
    ensures InstCost(p, a, i) == InstCost(p, b, i)
  {
    hide EdgesCost;
    if p.f.insts[i].kind.IsTerminator() { EdgesCostSame(p, a, b, ord, v, i, EdgeCount(p.f.insts[i].kind)); }
  }

  lemma {:induction false} UsesCostSame<D>(p: Problem<D>, a: Plan, b: Plan, ord: seq<nat>, v: nat, n: nat)
    requires ProblemOk(p) && Forward(p, a.live, ord) && v < |ord| && AgreeAfter(a, b, ord, ord[v])
    requires n <= |p.f.uses[v]|
    ensures UsesCost(p, a, Users(p.f.uses[v]), n) == UsesCost(p, b, Users(p.f.uses[v]), n)
  {
    hide InstCost, ProblemOk, UseForward;
    if n > 0 {
      UsesCostSame(p, a, b, ord, v, n - 1);
      UsersFit(p, v);
      var i := Users(p.f.uses[v])[n - 1];
      assert i in Users(p.f.uses[v]);
      if MayRun(p, a, i) {
        assert MayRun(p, Plan([], a.live), i);
        InstCostSame(p, a, b, ord, v, i);
      }
    }
  }

  /** The budgets of the values from `top - n` on, and zero before. */
  ghost function Costs<D>(p: Problem<D>, live: seq<bool>, ord: seq<nat>, top: nat, n: nat): (r: seq<nat>)
    requires |ord| == |p.f.uses| && n <= top
    ensures |r| == |ord|
  {
    if n == 0 then seq(|ord|, _ => 0)
    else
      var before := Costs(p, live, ord, top, n - 1);
      seq(|ord|, v requires 0 <= v < |ord| =>
        if ord[v] == top - n then 1 + UsesCost(p, Plan(before, live), Users(p.f.uses[v]), |p.f.uses[v]|) else before[v])
  }

  lemma {:induction false} CostsBalance<D>(p: Problem<D>, live: seq<bool>, ord: seq<nat>, top: nat, n: nat)
    requires ProblemOk(p) && Forward(p, live, ord) && n <= top
    ensures forall v: nat :: v < |ord| && top - n <= ord[v] < top ==> ValueBalanced(p, Plan(Costs(p, live, ord, top, n), live), v)
  {
    hide ProblemOk, Forward, UsesCost;
    if n > 0 {
      CostsBalance(p, live, ord, top, n - 1);
      Sizes(p, live, ord);
      var a, b := Plan(Costs(p, live, ord, top, n - 1), live), Plan(Costs(p, live, ord, top, n), live);
      forall v: nat | v < |ord| && top - n <= ord[v] < top ensures ValueBalanced(p, b, v) {
        UsesCostSame(p, a, b, ord, v, |p.f.uses[v]|);
        if ord[v] > top - n { assert ValueBalanced(p, a, v); }
      }
    }
  }

  lemma Sizes<D>(p: Problem<D>, live: seq<bool>, ord: seq<nat>)
    requires Forward(p, live, ord)
    ensures |p.f.uses| == |p.f.values| == |ord|
  { }

  /** An order that goes forward gives budgets that balance, so the solver stops. */
  lemma OrderBalances<D>(p: Problem<D>, live: seq<bool>, ord: seq<nat>, top: nat)
    requires ProblemOk(p) && Forward(p, live, ord) && forall v: nat :: v < |ord| ==> ord[v] < top
    ensures Balanced(p, Plan(Costs(p, live, ord, top, top), live))
  {
    hide ProblemOk, Forward, ValueBalanced;
    Sizes(p, live, ord);
    CostsBalance(p, live, ord, top, top);
  }

  // -------------------------------------------------------- an order, or a cycle

  /** A change of `v` may make some use of it store to `w`, and not as the parameter of
      a header. */
  ghost predicate Feeds<D>(p: Problem<D>, live: seq<bool>, v: nat, w: nat) {
    v < |p.f.uses| && v < |p.f.values| && w < |p.f.values| && exists i: nat :: FeedsBy(p, live, i, v, w)
  }

  ghost predicate FeedsBy<D>(p: Problem<D>, live: seq<bool>, i: nat, v: nat, w: nat)
    requires v < |p.f.uses|
  {
    i < |p.f.insts| && i in Users(p.f.uses[v]) && MayRun(p, Plan([], live), i) && Stores(p, p.f.insts[i], w)
  }

  ghost predicate Stores<D>(p: Problem<D>, t: Inst, w: nat) {
    if t.kind.IsTerminator() then exists si: nat :: si < EdgeCount(t.kind) && StoresAt(p, Target(t, si), w) else t.result == Some(w)
  }

  ghost predicate StoresAt<D>(p: Problem<D>, b: nat, w: nat) {
    !IsHeader(p, b) && w in ParamsOf(p, b)
  }

  ghost predicate Chain<D>(p: Problem<D>, live: seq<bool>, c: seq<nat>) {
    |c| > 1 && forall k :: 0 <= k < |c| - 1 ==> Feeds(p, live, c[k], c[k + 1])
  }

  ghost predicate FeedsOn<D>(p: Problem<D>, live: seq<bool>, v: nat, w: nat) {
    exists c: seq<nat> :: Chain(p, live, c) && c[0] == v && c[|c| - 1] == w
  }

  /** No value feeds itself. */
  ghost predicate NoCycle<D>(p: Problem<D>, live: seq<bool>) {
    forall v: nat :: !FeedsOn(p, live, v, v)
  }

  lemma ForwardIsAfter<D>(p: Problem<D>, live: seq<bool>, ord: seq<nat>)
    requires |p.f.uses| == |p.f.values| == |ord|
    ensures Forward(p, live, ord) <==> forall v: nat, w: nat :: Feeds(p, live, v, w) ==> v < |ord| && After(ord, v, w)
  {
    hide MayRun, After;
    if Forward(p, live, ord) {
      forall v: nat, w: nat | Feeds(p, live, v, w) ensures v < |ord| && After(ord, v, w) {
        var i: nat :| FeedsBy(p, live, i, v, w);
        StoresAfter(p, ord, v, i, w);
      }
    }
    if forall v: nat, w: nat :: Feeds(p, live, v, w) ==> v < |ord| && After(ord, v, w) {
      forall v: nat, i: nat | v < |ord| && i < |p.f.insts| && i in Users(p.f.uses[v]) && MayRun(p, Plan([], live), i)
        ensures UseForward(p, ord, v, i)
      {
        forall w: nat | Stores(p, p.f.insts[i], w) && w < |ord| ensures After(ord, v, w) {
          assert FeedsBy(p, live, i, v, w);
          assert Feeds(p, live, v, w);
        }
        AfterStores(p, ord, v, i);
      }
    }
  }

  lemma StoresAfter<D>(p: Problem<D>, ord: seq<nat>, v: nat, i: nat, w: nat)
    requires v < |ord| && i < |p.f.insts| && UseForward(p, ord, v, i) && Stores(p, p.f.insts[i], w)
    ensures After(ord, v, w)
  {
    hide Target, EdgeCount, ParamsOf, IsHeader, After;
    var t := p.f.insts[i];
    if t.kind.IsTerminator() {
      var si: nat :| si < EdgeCount(t.kind) && StoresAt(p, Target(t, si), w);
      var k :| 0 <= k < |ParamsOf(p, Target(t, si))| && ParamsOf(p, Target(t, si))[k] == w;
      assert ParamForward(p, ord, v, Target(t, si), k);
    }
  }

  lemma AfterStores<D>(p: Problem<D>, ord: seq<nat>, v: nat, i: nat)
    requires v < |ord| && i < |p.f.insts|
    requires forall w: nat :: Stores(p, p.f.insts[i], w) && w < |ord| ==> After(ord, v, w)
    ensures UseForward(p, ord, v, i)
  {
    hide Target, EdgeCount, ParamsOf, IsHeader;
    var t := p.f.insts[i];
    if t.kind.IsTerminator() {
      forall si: nat, k: nat | si < EdgeCount(t.kind) && k < |ParamsOf(p, Target(t, si))|
        ensures ParamForward(p, ord, v, Target(t, si), k)
      {
        var b := Target(t, si);
        if !IsHeader(p, b) && ParamsOf(p, b)[k] < |ord| {
          assert StoresAt(p, b, ParamsOf(p, b)[k]);
          assert Stores(p, t, ParamsOf(p, b)[k]);
        }
      }
    } else if t.result.Some? && t.result.value < |ord| {
      assert Stores(p, t, t.result.value);
    }
  }

  lemma {:induction false} ChainRises<D>(p: Problem<D>, live: seq<bool>, ord: seq<nat>, c: seq<nat>)
    requires Chain(p, live, c) && forall v: nat, w: nat :: Feeds(p, live, v, w) ==> v < |ord| && w < |ord| && ord[v] < ord[w]
    ensures c[0] < |ord| && c[|c| - 1] < |ord| && ord[c[0]] < ord[c[|c| - 1]]
    decreases |c|
  {
    hide Feeds;
    var m := |c| - 1;
    assert Feeds(p, live, c[m - 1], c[m - 1 + 1]);
    if m > 1 { ChainRises(p, live, ord, c[..m]); }
  }

  lemma FeedsFurther<D>(p: Problem<D>, live: seq<bool>, u: nat, v: nat, w: nat)
    requires Feeds(p, live, v, w)
    ensures FeedsOn(p, live, v, w) && (FeedsOn(p, live, u, v) ==> FeedsOn(p, live, u, w))
  {
    hide Feeds;
    assert Chain(p, live, [v, w]);
    if FeedsOn(p, live, u, v) {
      var c: seq<nat> :| Chain(p, live, c) && c[0] == u && c[|c| - 1] == v;
      assert Chain(p, live, c + [w]);
    }
  }

  ghost function Feeders<D>(p: Problem<D>, live: seq<bool>, v: nat): set<nat> {
    set u: nat | u < |p.f.values| && FeedsOn(p, live, u, v)
  }

  /** What feeds a value feeds whatever that feeds. */
  lemma FeedersGrow<D>(p: Problem<D>, live: seq<bool>, v: nat, w: nat)
    requires NoCycle(p, live) && Feeds(p, live, v, w)
    ensures |Feeders(p, live, v)| < |Feeders(p, live, w)|
  {
    hide FeedsOn;
    var a, b := Feeders(p, live, v), Feeders(p, live, w);
    forall u: nat ensures FeedsOn(p, live, v, w) && (FeedsOn(p, live, u, v) ==> FeedsOn(p, live, u, w)) {
      FeedsFurther(p, live, u, v, w);
    }
    assert b == a + (b - a) && v in b - a;
  }

  /** There is such an order if and only if no value feeds itself. */
  lemma OrderIffNoCycle<D>(p: Problem<D>, live: seq<bool>)
    requires ProblemOk(p)
    ensures HasOrder(p, live) <==> NoCycle(p, live)
  {
    hide Feeds, Forward, WellFormedFunction;
    UsesSized(p);
    if HasOrder(p, live) {
      var ord: seq<nat> :| Forward(p, live, ord);
      NoCycleBy(p, live, ord);
    }
    if NoCycle(p, live) {
      var ord := seq(|p.f.values|, v requires 0 <= v < |p.f.values| => |Feeders(p, live, v)|);
      forall v: nat, w: nat | Feeds(p, live, v, w) ensures v < |ord| && After(ord, v, w) {
        FeedsInRange(p, live, v, w);
        FeedersGrow(p, live, v, w);
      }
      ForwardIsAfter(p, live, ord);
    }
  }

  lemma NoCycleBy<D>(p: Problem<D>, live: seq<bool>, ord: seq<nat>)
    requires Forward(p, live, ord)
    ensures NoCycle(p, live)
  {
    hide Forward, Feeds;
    Sizes(p, live, ord);
    ForwardIsAfter(p, live, ord);
    forall v: nat, w: nat | Feeds(p, live, v, w) ensures v < |ord| && w < |ord| && ord[v] < ord[w] { FeedsInRange(p, live, v, w); }
    forall v: nat ensures !FeedsOn(p, live, v, v) {
      forall c: seq<nat> | Chain(p, live, c) ensures c[0] != c[|c| - 1] { ChainRises(p, live, ord, c); }
    }
  }

  lemma UsesSized<D>(p: Problem<D>)
    requires ProblemOk(p)
    ensures |p.f.uses| == |p.f.values|
  { }

  lemma FeedsInRange<D>(p: Problem<D>, live: seq<bool>, v: nat, w: nat)
    requires Feeds(p, live, v, w)
    ensures v < |p.f.values| && w < |p.f.values|
  { }

  // ------------------------------------------------------------- which blocks can run

  function GraphOf(f: Function): (g: Graph)
    ensures |g| == |f.blocks| && forall b: nat :: b < |g| ==> g[b] == SuccessorsOf(f, b)
  {
    seq(|f.blocks|, b requires 0 <= b < |f.blocks| => SuccessorsOf(f, b))
  }

  /** `live` marks the blocks that the edges reach. */
  ghost predicate LiveExact<D>(p: Problem<D>, live: seq<bool>) {
    && p.f.entry.Some? && |live| == |p.f.blocks|
    && forall b: nat :: b < |live| ==> (live[b] <==> Reaches(GraphOf(p.f), p.f.entry.value, b))
  }

  lemma LiveIsOk<D>(p: Problem<D>, live: seq<bool>, plan: Plan)
    requires ProblemOk(p) && LiveExact(p, live) && plan.live == live
    ensures LiveOk(p, plan)
  {
    hide Reaches;
    var g, entry := GraphOf(p.f), p.f.entry.value;
    EntryReached(g, entry);
    forall b: nat | b < |live| && live[b] ensures LeadsToLive(p, plan, b) {
      forall t | t in SuccessorsOf(p.f, b) ensures t < |live| && live[t] {
        SuccessorsInRange(p.f, b, t);
        assert Edge(g, b, t);
        ReachesStep(g, entry, b, t);
      }
    }
  }

  lemma EntryReached(g: Graph, entry: nat)
    requires entry < |g|
    ensures Reaches(g, entry, entry)
  {
    assert PathFromTo(g, [entry], entry, entry);
  }

  ghost function Above(ord: seq<nat>): (n: nat)
    ensures forall v: nat :: v < |ord| ==> ord[v] < n
  {
    if ord == [] then 0
    else
      var m := |ord| - 1;
      assert forall v: nat :: v < m ==> ord[..m][v] == ord[v];
      if ord[m] >= Above(ord[..m]) then ord[m] + 1 else Above(ord[..m])
  }

  /** With such an order the solver stops on every lattice with a widening that stops,
      whatever order it is served in. */
  lemma OrderIsEnough<D(!new)>(p: Problem<D>, live: seq<bool>, rank: D -> nat) returns (bound: nat)
    requires ProblemOk(p) && LiveExact(p, live) && HasOrder(p, live) && WideningStops(p.dom, rank)
    ensures forall choices: seq<Choice> :: RunChoices(p, choices).Some? ==> |choices| <= bound
  {
    hide WideningStops, Forward, Balanced, LiveOk, LiveExact, ProblemOk;
    var ord: seq<nat> :| Forward(p, live, ord);
    Sizes(p, live, ord);
    var top := Above(ord);
    OrderBalances(p, live, ord, top);
    var plan := Plan(Costs(p, live, ord, top, top), live);
    LiveIsOk(p, live, plan);
    bound := Budget(p, plan, Start(p), rank);
    forall choices: seq<Choice> | RunChoices(p, choices).Some? ensures |choices| <= bound {
      WidenedIsBounded(p, plan, choices, rank);
    }
  }

  // ------------------------------------------------------------------ reducible graphs

  /** In the reverse postorder `num`, every edge goes forward or enters a loop
      header. */
  ghost predicate Reducible(g: Graph, entry: nat, num: seq<nat>) {
    |num| == |g| && forall a: nat, b: nat :: Edge(g, a, b) && Reaches(g, entry, a) ==> b < |g| && EdgeForward(g, entry, num, a, b)
  }

  ghost predicate EdgeForward(g: Graph, entry: nat, num: seq<nat>, a: nat, b: nat)
    requires |num| == |g| && a < |g| && b < |g|
  {
    num[a] < num[b] || IsLoopHeader(g, entry, b)
  }

  /** Where each instruction sits in its block. */
  ghost predicate Positions(f: Function, pos: seq<nat>) {
    && |pos| == |f.insts|
    && (forall b: nat, k: nat :: b < |f.blocks| && k < |f.blocks[b].insts| && f.blocks[b].insts[k] < |pos| ==> pos[f.blocks[b].insts[k]] == k)
    && (forall b: nat :: b < |f.blocks| && f.blocks[b].term.Some? && f.blocks[b].term.value < |pos| ==>
          pos[f.blocks[b].term.value] == |f.blocks[b].insts|)
  }

  /** What the IR verifier guarantees of operands in reachable blocks: a definition in
      the same block comes before, one in another block dominates. */
  ghost predicate Strict(f: Function, entry: nat, pos: seq<nat>)
    requires |pos| == |f.insts|
  {
    forall i: nat, b: nat, v: nat ::
      i < |f.insts| && Placed(f, i, b) && Reaches(GraphOf(f), entry, b) && v in f.insts[i].operands ==>
        DefinedBefore(f, entry, pos, i, b, v)
  }

  ghost predicate DefinedBefore(f: Function, entry: nat, pos: seq<nat>, i: nat, b: nat, v: nat)
    requires |pos| == |f.insts| && i < |f.insts|
  {
    v < |f.values| ==>
      match f.values[v]
      case FromInst(j) =>
        j < |f.insts| && exists a: nat :: Placed(f, j, a) && Paths.Dominates(GraphOf(f), entry, a, b) && (a == b ==> pos[j] < pos[i])
      case Param(a, _) => a < |f.blocks| && Paths.Dominates(GraphOf(f), entry, a, b)
      case _ => true
  }

  /** A dominator is numbered no later. */
  lemma {:induction false} DominatorEarlier(g: Graph, entry: nat, rpo: seq<nat>, num: seq<nat>, a: nat, i: nat)
    requires IsRpo(g, entry, rpo, num) && i < |rpo| && a < |g| && Paths.Dominates(g, entry, a, rpo[i])
    ensures num[a] <= i && (a != rpo[i] ==> num[a] < i)
  {
    hide IsRpo;
    var path := EarlierPath(g, entry, rpo, num, i);
    assert a in path;
  }

  /** A path from the entry through blocks numbered ever higher. */
  lemma {:induction false} EarlierPath(g: Graph, entry: nat, rpo: seq<nat>, num: seq<nat>, i: nat) returns (path: seq<nat>)
    requires IsRpo(g, entry, rpo, num) && i < |rpo|
    ensures PathFromTo(g, path, entry, rpo[i])
    ensures forall x: nat :: x in path ==> x < |g| && |num| == |g| && num[x] <= i && (num[x] == i ==> x == rpo[i])
    decreases i
  {
    if i == 0 {
      path := [entry];
    } else {
      assert HasEarlierPred(g, rpo, num, i);
      var j: nat :| j < i && Edge(g, rpo[j], rpo[i]);
      var before := EarlierPath(g, entry, rpo, num, j);
      PathExtend(g, before, entry, rpo[j], rpo[i]);
      path := before + [rpo[i]];
    }
  }

  /** Blocks in reverse postorder, in each the parameters and then the results. */
  ghost function Order(f: Function, num: seq<nat>, pos: seq<nat>, blockOf: seq<Option<nat>>, width: nat): (r: seq<nat>)
    requires |pos| == |f.insts|
    ensures |r| == |f.values|
    ensures forall v: nat :: v < |r| ==> r[v] == Place(f, num, pos, blockOf, width, v)
  {
    seq(|f.values|, v requires 0 <= v < |f.values| => Place(f, num, pos, blockOf, width, v))
  }

  ghost function Place(f: Function, num: seq<nat>, pos: seq<nat>, blockOf: seq<Option<nat>>, width: nat, v: nat): nat
    requires |pos| == |f.insts| && v < |f.values|
  {
    match f.values[v]
    case FromInst(j) =>
      if j < |pos| && j < |blockOf| && blockOf[j].Some? && blockOf[j].value < |num| then 1 + num[blockOf[j].value] * width + 1 + pos[j] else 0
    case Param(a, _) => if a < |num| then 1 + num[a] * width else 0
    case _ => 0
  }

  ghost predicate Setting<D>(p: Problem<D>, rpo: seq<nat>, num: seq<nat>, pos: seq<nat>, width: nat, live: seq<bool>) {
    && ProblemOk(p) && IsRpo(GraphOf(p.f), p.f.entry.value, rpo, num) && Reducible(GraphOf(p.f), p.f.entry.value, num)
    && Positions(p.f, pos) && Strict(p.f, p.f.entry.value, pos)
    && (forall b: nat :: b < |p.f.blocks| ==> |p.f.blocks[b].insts| + 1 < width)
    && (forall h: nat :: h < |p.f.blocks| ==> (p.header[h] <==> IsLoopHeader(GraphOf(p.f), p.f.entry.value, h)))
    && LiveExact(p, live)
  }

  lemma FurtherBlock(m: nat, n: nat, width: nat, x: nat)
    requires m < n && x < width
    ensures m * width + x < n * width
  {
    var d := n - m - 1;
    assert n * width == m * width + width + d * width;
  }

  /** What an operand's place is at most, seen from where it is used. */
  lemma OperandPlace<D>(p: Problem<D>, rpo: seq<nat>, num: seq<nat>, pos: seq<nat>, width: nat, live: seq<bool>, v: nat, i: nat, b: nat)
    requires Setting(p, rpo, num, pos, width, live)
    requires i < |p.f.insts| && Placed(p.f, i, b) && b < |live| && live[b] && v in p.f.insts[i].operands && v < |p.f.values|
    ensures b < |num| && |pos| == |p.f.insts| && Place(p.f, num, pos, p.instBlock, width, v) < 1 + num[b] * width + 1 + pos[i]
  {
    hide IsRpo, WellFormedFunction, Reducible, Strict, Positions;
    SettingParts(p, rpo, num, pos, width, live, i, b, v);
    var g, entry := GraphOf(p.f), p.f.entry.value;
    RpoOf(g, entry, rpo, num, b);
    match p.f.values[v]
    case FromInst(j) =>
      var a: nat :| Placed(p.f, j, a) && Paths.Dominates(g, entry, a, b) && (a == b ==> pos[j] < pos[i]);
      DominatorEarlier(g, entry, rpo, num, a, num[b]);
      PositionBelow(p, pos, width, j, a);
      if num[a] < num[b] { FurtherBlock(num[a], num[b], width, 1 + pos[j]); }
    case Param(a, _) =>
      DominatorEarlier(g, entry, rpo, num, a, num[b]);
      if num[a] < num[b] { FurtherBlock(num[a], num[b], width, 0); }
    case _ =>
  }

  lemma SettingParts<D>(p: Problem<D>, rpo: seq<nat>, num: seq<nat>, pos: seq<nat>, width: nat, live: seq<bool>, i: nat, b: nat, v: nat)
    requires Setting(p, rpo, num, pos, width, live)
    requires i < |p.f.insts| && Placed(p.f, i, b) && b < |live| && live[b] && v in p.f.insts[i].operands
    ensures Reaches(GraphOf(p.f), p.f.entry.value, b) && |pos| == |p.f.insts|
    ensures DefinedBefore(p.f, p.f.entry.value, pos, i, b, v) && width > 1
  {
    hide IsRpo, WellFormedFunction, Reducible, DefinedBefore;
    assert |p.f.blocks[b].insts| + 1 < width;
  }

  lemma RpoOf(g: Graph, entry: nat, rpo: seq<nat>, num: seq<nat>, b: nat)
    requires IsRpo(g, entry, rpo, num) && b < |g| && Reaches(g, entry, b)
    ensures |num| == |g| && num[b] < |rpo| && rpo[num[b]] == b
  {
    var i :| 0 <= i < |rpo| && rpo[i] == b;
  }

  lemma PositionBelow<D>(p: Problem<D>, pos: seq<nat>, width: nat, j: nat, a: nat)
    requires ProblemOk(p) && Positions(p.f, pos) && j < |p.f.insts| && Placed(p.f, j, a)
    requires forall b: nat :: b < |p.f.blocks| ==> |p.f.blocks[b].insts| + 1 < width
    ensures p.instBlock[j] == Some(a) && 1 + pos[j] < width
  {
    if j in p.f.blocks[a].insts {
      var k :| 0 <= k < |p.f.blocks[a].insts| && p.f.blocks[a].insts[k] == j;
      assert pos[p.f.blocks[a].insts[k]] == k;
    } else {
      assert pos[p.f.blocks[a].term.value] == |p.f.blocks[a].insts|;
    }
    assert |p.f.blocks[a].insts| + 1 < width;
  }

  /** On a reducible graph in strict form the values are in such an order. */
  lemma ReducibleGoesForward<D>(p: Problem<D>, rpo: seq<nat>, num: seq<nat>, pos: seq<nat>, width: nat, live: seq<bool>)
    requires Setting(p, rpo, num, pos, width, live)
    ensures |pos| == |p.f.insts| && Forward(p, live, Order(p.f, num, pos, p.instBlock, width))
  {
    hide IsRpo, Reducible, Strict, UseForward;
    var ord := Order(p.f, num, pos, p.instBlock, width);
    forall v: nat, i: nat | v < |ord| && i < |p.f.insts| && i in Users(p.f.uses[v]) && MayRun(p, Plan([], live), i)
      ensures UseForward(p, ord, v, i)
    {
      UseIsOperand(p, v, i);
      OneUseForward(p, rpo, num, pos, width, live, v, i);
    }
  }

  lemma UseIsOperand<D>(p: Problem<D>, v: nat, i: nat)
    requires ProblemOk(p) && v < |p.f.uses| && i in Users(p.f.uses[v])
    ensures i < |p.f.insts| && v in p.f.insts[i].operands
  {
    var k :| 0 <= k < |p.f.uses[v]| && Users(p.f.uses[v])[k] == i;
    assert p.f.uses[v][k] in p.f.uses[v];
  }

  lemma OneUseForward<D>(p: Problem<D>, rpo: seq<nat>, num: seq<nat>, pos: seq<nat>, width: nat, live: seq<bool>, v: nat, i: nat)
    requires Setting(p, rpo, num, pos, width, live) && v < |p.f.values| && i < |p.f.insts|
    requires v in p.f.insts[i].operands && MayRun(p, Plan([], live), i)
    ensures |pos| == |p.f.insts| && UseForward(p, Order(p.f, num, pos, p.instBlock, width), v, i)
  {
    hide IsRpo, WellFormedFunction, Strict, Positions, Place, IsHeader, Reaches;
    var b := p.instBlock[i].value;
    assert Placed(p.f, i, b);
    OperandPlace(p, rpo, num, pos, width, live, v, i, b);
    var ord := Order(p.f, num, pos, p.instBlock, width);
    if p.f.insts[i].kind.IsTerminator() {
      forall si: nat, k: nat | si < EdgeCount(p.f.insts[i].kind) && k < |ParamsOf(p, Target(p.f.insts[i], si))|
        ensures ParamForward(p, ord, v, Target(p.f.insts[i], si), k)
      {
        EdgeParamForward(p, rpo, num, pos, width, live, i, b, si, k);
      }
    } else if p.f.insts[i].result.Some? {
      ResultPlace(p, num, pos, width, i, b);
    }
  }

  lemma ResultPlace<D>(p: Problem<D>, num: seq<nat>, pos: seq<nat>, width: nat, i: nat, b: nat)
    requires ProblemOk(p) && i < |p.f.insts| && Placed(p.f, i, b) && p.f.insts[i].result.Some? && |pos| == |p.f.insts| && b < |num|
    ensures p.f.insts[i].result.value < |p.f.values|
    ensures Place(p.f, num, pos, p.instBlock, width, p.f.insts[i].result.value) == 1 + num[b] * width + 1 + pos[i]
  {
    assert WellFormedInst(p.f, i);
  }

  lemma EdgeParamForward<D>(p: Problem<D>, rpo: seq<nat>, num: seq<nat>, pos: seq<nat>, width: nat, live: seq<bool>,
                            i: nat, b: nat, si: nat, k: nat)
    requires Setting(p, rpo, num, pos, width, live) && i < |p.f.insts| && p.f.insts[i].kind.IsTerminator()
    requires Placed(p.f, i, b) && b < |live| && live[b] && si < EdgeCount(p.f.insts[i].kind)
    requires k < |ParamsOf(p, Target(p.f.insts[i], si))|
    ensures var c := Target(p.f.insts[i], si);
            && b < |num| && |pos| == |p.f.insts| && ParamsOf(p, c)[k] < |p.f.values|
            && (IsHeader(p, c) || 1 + num[b] * width + 1 + pos[i] <= Place(p.f, num, pos, p.instBlock, width, ParamsOf(p, c)[k]))
  {
    hide IsRpo, Strict;
    var c := Target(p.f.insts[i], si);
    PlacedAsTerm(p, i, b);
    ParamIsOwn(p, c, k);
    ParamPlace(p, num, pos, width, c, k);
    PositionBelow(p, pos, width, i, b);
    EdgeGoesForward(p, num, b, c);
    if num[b] < num[c] { FurtherBlock(num[b], num[c], width, 1 + pos[i]); }
  }

  lemma EdgeGoesForward<D>(p: Problem<D>, num: seq<nat>, b: nat, c: nat)
    requires ProblemOk(p) && Reducible(GraphOf(p.f), p.f.entry.value, num) && b < |p.f.blocks| && c in SuccessorsOf(p.f, b)
    requires Reaches(GraphOf(p.f), p.f.entry.value, b)
    requires forall h: nat :: h < |p.f.blocks| ==> (p.header[h] <==> IsLoopHeader(GraphOf(p.f), p.f.entry.value, h))
    ensures c < |p.f.blocks| == |num| && (num[b] < num[c] || IsHeader(p, c))
  {
    assert Edge(GraphOf(p.f), b, c);
    assert EdgeForward(GraphOf(p.f), p.f.entry.value, num, b, c);
  }

  lemma ParamPlace<D>(p: Problem<D>, num: seq<nat>, pos: seq<nat>, width: nat, c: nat, k: nat)
    requires ProblemOk(p) && k < |ParamsOf(p, c)| && |pos| == |p.f.insts| && c < |num|
    ensures ParamsOf(p, c)[k] < |p.f.values| && Place(p.f, num, pos, p.instBlock, width, ParamsOf(p, c)[k]) == 1 + num[c] * width
  {
    assert WellFormedBlock(p.f, c);
  }

  /** On a reducible graph the solver stops on every lattice with a widening that
      stops, whatever order it is served in. */
  lemma ReducibleStops<D(!new)>(p: Problem<D>, rpo: seq<nat>, num: seq<nat>, pos: seq<nat>, width: nat, live: seq<bool>, rank: D -> nat)
    returns (bound: nat)
    requires Setting(p, rpo, num, pos, width, live) && WideningStops(p.dom, rank)
    ensures forall choices: seq<Choice> :: RunChoices(p, choices).Some? ==> |choices| <= bound
  {
    hide WideningStops, Setting, Forward, LiveExact, ProblemOk;
    SettingOk(p, rpo, num, pos, width, live);
    ReducibleGoesForward(p, rpo, num, pos, width, live);
    bound := OrderIsEnough(p, live, rank);
  }

  lemma SettingOk<D>(p: Problem<D>, rpo: seq<nat>, num: seq<nat>, pos: seq<nat>, width: nat, live: seq<bool>)
    requires Setting(p, rpo, num, pos, width, live)
    ensures ProblemOk(p) && LiveExact(p, live)
  { }
}
