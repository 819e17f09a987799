/** Why the sparse solver stops on lattices of any height: widening at loop headers is
    enough when no value depends on itself but through a header's parameter. */
module SolverWidens {
  import opened Wrappers
  import opened Ir
  import opened AbstractDomain
  import opened SolverSteps
  import opened SolverSound
  import opened SolverLeast

  /** A value merged at a loop header can change only so often: every change by
      widening lowers its rank. No law of the lattice is asked for. */
  ghost predicate WideningStops<D(!new)>(dom: Domain<D>, rank: D -> nat) {
    forall a, b {:trigger dom.widen(a, dom.join(a, b))} ::
      dom.widen(a, dom.join(a, b)) != a ==> rank(dom.widen(a, dom.join(a, b))) < rank(a)
  }

  predicate IsHeader<D>(p: Problem<D>, b: nat) {
    b < |p.header| && p.header[b]
  }

  predicate HeaderParam<D>(p: Problem<D>, v: nat) {
    v < |p.f.values| && p.f.values[v].Param? && IsHeader(p, p.f.values[v].block)
  }

  // -------------------------------------------------------------------- budgets

  /** What a change of each value may set off, counted in worklist entries, and the
      blocks that may be reached. */
  datatype Plan = Plan(cost: seq<nat>, live: seq<bool>)
  {
    function Of(v: nat): nat { if v < |cost| then cost[v] else 0 }
  }

  /** What merging into the first `n` parameters of `b` may set off; a header pays for
      its own out of their ranks. */
  function ParamsCost<D>(p: Problem<D>, plan: Plan, b: nat, n: nat): nat
    requires n <= |ParamsOf(p, b)|
  {
    if n == 0 then 0 else ParamsCost(p, plan, b, n - 1) + if IsHeader(p, b) then 0 else plan.Of(ParamsOf(p, b)[n - 1])
  }

  function EdgeCost<D>(p: Problem<D>, plan: Plan, t: Inst, si: nat): nat
    requires si < EdgeCount(t.kind)
  {
    ParamsCost(p, plan, Target(t, si), |ParamsOf(p, Target(t, si))|)
  }

  function EdgesCost<D>(p: Problem<D>, plan: Plan, t: Inst, n: nat): nat
    requires n <= EdgeCount(t.kind)
  {
    if n == 0 then 0 else EdgesCost(p, plan, t, n - 1) + EdgeCost(p, plan, t, n - 1)
  }

  /** What a visit of instruction `i` may set off. */
  function InstCost<D>(p: Problem<D>, plan: Plan, i: nat): nat {
    if i >= |p.f.insts| then 0
    else if p.f.insts[i].kind.IsTerminator() then EdgesCost(p, plan, p.f.insts[i], EdgeCount(p.f.insts[i].kind))
    else match p.f.insts[i].result case None => 0 case Some(r) => plan.Of(r)
  }

  function InstsCost<D>(p: Problem<D>, plan: Plan, list: seq<nat>, n: nat): nat
    requires n <= |list|
  {
    if n == 0 then 0 else InstsCost(p, plan, list, n - 1) + InstCost(p, plan, list[n - 1])
  }

  function BlockCost<D>(p: Problem<D>, plan: Plan, b: nat): (c: nat)
    ensures c >= 1
  {
    if b >= |p.f.blocks| then 1
    else
      1 + InstsCost(p, plan, p.f.blocks[b].insts, |p.f.blocks[b].insts|)
      + match p.f.blocks[b].term case None => 0 case Some(i) => InstCost(p, plan, i)
  }

  /** Whether a use may ever be revisited. */
  predicate MayRun<D>(p: Problem<D>, plan: Plan, i: nat) {
    i < |p.instBlock| && p.instBlock[i].Some? && p.instBlock[i].value < |plan.live| && plan.live[p.instBlock[i].value]
  }

  function UsesCost<D>(p: Problem<D>, plan: Plan, us: seq<nat>, n: nat): nat
    requires n <= |us|
  {
    if n == 0 then 0 else UsesCost(p, plan, us, n - 1) + if MayRun(p, plan, us[n - 1]) then InstCost(p, plan, us[n - 1]) else 0
  }

  /** Every value's budget covers its own entry and all its uses. */
  ghost predicate Balanced<D>(p: Problem<D>, plan: Plan) {
    && |p.f.uses| == |p.f.values| == |plan.cost|
    && forall v: nat :: v < |plan.cost| ==> ValueBalanced(p, plan, v)
  }

  ghost predicate ValueBalanced<D>(p: Problem<D>, plan: Plan, v: nat)
    requires v < |p.f.uses|
  {
    plan.Of(v) > UsesCost(p, plan, Users(p.f.uses[v]), |p.f.uses[v]|)
  }

  /** The blocks that may be reached: the entry's, and whatever they lead to. */
  ghost predicate LiveOk<D>(p: Problem<D>, plan: Plan) {
    && p.f.entry.Some? && p.f.entry.value < |plan.live| && plan.live[p.f.entry.value]
    && forall b: nat :: b < |plan.live| && plan.live[b] ==> LeadsToLive(p, plan, b)
  }

  ghost predicate LeadsToLive<D>(p: Problem<D>, plan: Plan, b: nat) {
    forall t :: t in SuccessorsOf(p.f, b) ==> t < |plan.live| && plan.live[t]
  }

  ghost predicate InLive<D>(plan: Plan, s: State<D>) {
    forall b: nat :: b < |s.exec| && s.exec[b] ==> b < |plan.live| && plan.live[b]
  }

  // ------------------------------------------------------------------ the measure

  function Listed(plan: Plan, wl: seq<nat>): nat {
    if wl == [] then 0 else Listed(plan, wl[..|wl| - 1]) + plan.Of(wl[|wl| - 1])
  }

  function BlocksListed<D>(p: Problem<D>, plan: Plan, wl: seq<nat>): nat {
    if wl == [] then 0 else BlocksListed(p, plan, wl[..|wl| - 1]) + BlockCost(p, plan, wl[|wl| - 1])
  }

  function Unreached<D>(p: Problem<D>, plan: Plan, exec: seq<bool>): nat {
    if exec == [] then 0
    else Unreached(p, plan, exec[..|exec| - 1]) + if exec[|exec| - 1] then 0 else BlockCost(p, plan, |exec| - 1)
  }

  /** What the header parameters can still pay. */
  function Ranks<D>(p: Problem<D>, plan: Plan, vals: seq<D>, rank: D -> nat): nat {
    if vals == [] then 0
    else
      var v := |vals| - 1;
      Ranks(p, plan, vals[..v], rank) + if HeaderParam(p, v) then rank(vals[v]) * plan.Of(v) else 0
  }

  function Budget<D>(p: Problem<D>, plan: Plan, s: State<D>, rank: D -> nat): nat {
    Listed(plan, s.ssaWl) + BlocksListed(p, plan, s.blockWl) + Unreached(p, plan, s.exec) + Ranks(p, plan, s.vals, rank)
  }

  lemma ListedOne(plan: Plan, wl: seq<nat>, v: nat)
    ensures Listed(plan, wl + [v]) == Listed(plan, wl) + plan.Of(v)
  {
    assert (wl + [v])[..|wl|] == wl;
  }

  lemma {:induction false} ListedWithout(plan: Plan, wl: seq<nat>, k: nat)
    requires k < |wl|
    ensures Listed(plan, Without(wl, k)) + plan.Of(wl[k]) == Listed(plan, wl)
    decreases |wl|
  {
    var m := |wl| - 1;
    if k == m {
      assert Without(wl, k) == wl[..m];
    } else {
      ListedWithout(plan, wl[..m], k);
      assert Without(wl, k) == Without(wl[..m], k) + [wl[m]];
      ListedOne(plan, Without(wl[..m], k), wl[m]);
    }
  }

  lemma BlocksListedOne<D>(p: Problem<D>, plan: Plan, wl: seq<nat>, b: nat)
    ensures BlocksListed(p, plan, wl + [b]) == BlocksListed(p, plan, wl) + BlockCost(p, plan, b)
  {
    assert (wl + [b])[..|wl|] == wl;
  }

  lemma {:induction false} BlocksListedWithout<D>(p: Problem<D>, plan: Plan, wl: seq<nat>, k: nat)
    requires k < |wl|
    ensures BlocksListed(p, plan, Without(wl, k)) + BlockCost(p, plan, wl[k]) == BlocksListed(p, plan, wl)
    decreases |wl|
  {
    hide BlockCost;
    var m := |wl| - 1;
    if k == m {
      assert Without(wl, k) == wl[..m];
    } else {
      BlocksListedWithout(p, plan, wl[..m], k);
      assert Without(wl, k) == Without(wl[..m], k) + [wl[m]];
      BlocksListedOne(p, plan, Without(wl[..m], k), wl[m]);
    }
  }

  lemma {:induction false} UnreachedDrops<D>(p: Problem<D>, plan: Plan, exec: seq<bool>, b: nat)
    requires b < |exec| && !exec[b]
    ensures Unreached(p, plan, exec[b := true]) + BlockCost(p, plan, b) == Unreached(p, plan, exec)
    decreases |exec|
  {
    hide BlockCost;
    var m := |exec| - 1;
    if b == m {
      assert exec[b := true][..m] == exec[..m];
    } else {
      assert exec[b := true][..m] == exec[..m][b := true];
      UnreachedDrops(p, plan, exec[..m], b);
    }
  }

  /** Storing a value moves the ranks only at a header parameter. */
  lemma {:induction false} RanksMove<D>(p: Problem<D>, plan: Plan, vals: seq<D>, rank: D -> nat, v: nat, d: D)
    requires v < |vals|
    ensures !HeaderParam(p, v) ==> Ranks(p, plan, vals[v := d], rank) == Ranks(p, plan, vals, rank)
    ensures HeaderParam(p, v) && rank(d) < rank(vals[v]) ==>
              Ranks(p, plan, vals[v := d], rank) + plan.Of(v) <= Ranks(p, plan, vals, rank)
    decreases |vals|
  {
    hide HeaderParam;
    var m := |vals| - 1;
    if v == m {
      assert vals[v := d][..m] == vals[..m];
      if rank(d) < rank(vals[v]) { LessTimes(rank(d), rank(vals[v]), plan.Of(v)); }
    } else {
      assert vals[v := d][..m] == vals[..m][v := d];
      RanksMove(p, plan, vals[..m], rank, v, d);
    }
  }

  lemma LessTimes(a: nat, b: nat, c: nat)
    requires a < b
    ensures a * c + c <= b * c
  {
    var d := b - a - 1;
    assert b == a + 1 + d;
    Distributes(a, d, c);
  }

  lemma Distributes(a: nat, d: nat, c: nat)
    ensures (a + 1 + d) * c == a * c + c + d * c && d * c >= 0
  { }

  // ---------------------------------------------------------------- single steps

  /** One sub-step: it stays in bounds, reaches only live blocks, and sets off at most
      `cost`. */
  ghost predicate Within<D>(p: Problem<D>, plan: Plan, s: State<D>, s': State<D>, rank: D -> nat, cost: nat) {
    Sized(p, s') && InLive(plan, s') && Budget(p, plan, s', rank) <= Budget(p, plan, s, rank) + cost
  }

  ghost predicate Going<D>(p: Problem<D>, plan: Plan, s: State<D>) {
    ProblemOk(p) && LiveOk(p, plan) && Sized(p, s) && InLive(plan, s)
  }

  lemma SetPays<D(!new)>(p: Problem<D>, plan: Plan, s: State<D>, v: nat, d: D, rank: D -> nat)
    requires Going(p, plan, s)
    requires HeaderParam(p, v) && v < |s.vals| && d != s.vals[v] ==> rank(d) < rank(s.vals[v])
    ensures Within(p, plan, s, SetVal(s, v, d), rank, if HeaderParam(p, v) then 0 else plan.Of(v))
  {
    hide ProblemOk, LiveOk, HeaderParam, Ranks, Listed, BlocksListed, Unreached;
    if v < |s.vals| && d != s.vals[v] {
      RanksMove(p, plan, s.vals, rank, v, d);
      ListedOne(plan, s.ssaWl, v);
    }
  }

  lemma VisitInstPays<D(!new)>(p: Problem<D>, plan: Plan, s: State<D>, i: nat, rank: D -> nat)
    requires Going(p, plan, s) && i < |p.f.insts| && !p.f.insts[i].kind.IsTerminator()
    ensures Within(p, plan, s, VisitInst(p, s, i), rank, InstCost(p, plan, i))
  {
    hide LiveOk, Budget, InLive, Sized, Transferred;
    if p.f.insts[i].result.Some? {
      ResultIsOwn(p, i);
      SetPays(p, plan, s, p.f.insts[i].result.value, Transferred(p, s, i), rank);
    }
  }

  lemma ResultIsOwn<D>(p: Problem<D>, i: nat)
    requires ProblemOk(p) && i < |p.f.insts| && p.f.insts[i].result.Some?
    ensures !HeaderParam(p, p.f.insts[i].result.value)
  {
    assert WellFormedInst(p.f, i);
  }

  lemma {:induction false} VisitInstsPay<D(!new)>(p: Problem<D>, plan: Plan, s: State<D>, list: seq<nat>, n: nat, rank: D -> nat)
    requires Going(p, plan, s) && n <= |list|
    requires forall i :: i in list ==> i < |p.f.insts| && !p.f.insts[i].kind.IsTerminator()
    ensures Within(p, plan, s, VisitInsts(p, s, list, n), rank, InstsCost(p, plan, list, n))
  {
    hide ProblemOk, LiveOk, Budget, InLive, Sized, InstCost, VisitInst;
    if n > 0 {
      VisitInstsPay(p, plan, s, list, n - 1, rank);
      assert list[n - 1] in list;
      VisitInstPays(p, plan, VisitInsts(p, s, list, n - 1), list[n - 1], rank);
    }
  }

  lemma ParamIsOwn<D>(p: Problem<D>, b: nat, k: nat)
    requires ProblemOk(p) && k < |ParamsOf(p, b)|
    ensures ParamsOf(p, b)[k] < |p.f.values| && (HeaderParam(p, ParamsOf(p, b)[k]) <==> IsHeader(p, b))
  {
    assert WellFormedBlock(p.f, b);
  }

  lemma {:induction false} UpdateParamsPay<D(!new)>(p: Problem<D>, plan: Plan, s: State<D>, t: Inst, si: nat, n: nat, rank: D -> nat)
    requires WideningStops(p.dom, rank) && Going(p, plan, s) && OperandsFit(t) && si < EdgeCount(t.kind)
    requires n <= |ParamsOf(p, Target(t, si))|
    ensures Within(p, plan, s, UpdateParams(p, s, t, si, n), rank, ParamsCost(p, plan, Target(t, si), n))
  {
    hide ProblemOk, LiveOk, Budget, InLive, WideningStops, OperandsFit, ArgVal, HeaderParam, IsHeader;
    if n > 0 {
      UpdateParamsPay(p, plan, s, t, si, n - 1, rank);
      var s1, b := UpdateParams(p, s, t, si, n - 1), Target(t, si);
      var param := ParamsOf(p, b)[n - 1];
      ParamIsOwn(p, b, n - 1);
      var d := Merged(p, b, Val(p, s1, param), ArgVal(p, s1, t, si, n - 1));
      MergedRanks(p, b, Val(p, s1, param), ArgVal(p, s1, t, si, n - 1), rank);
      SetPays(p, plan, s1, param, d, rank);
    }
  }

  lemma MergedRanks<D(!new)>(p: Problem<D>, b: nat, old_: D, arg: D, rank: D -> nat)
    requires WideningStops(p.dom, rank)
    ensures IsHeader(p, b) && Merged(p, b, old_, arg) != old_ ==> rank(Merged(p, b, old_, arg)) < rank(old_)
  { }

  lemma MarkBlockPays<D>(p: Problem<D>, plan: Plan, s: State<D>, b: nat, rank: D -> nat)
    requires Sized(p, s) && InLive(plan, s) && b < |plan.live| && plan.live[b]
    ensures Within(p, plan, s, MarkBlock(s, b), rank, 0)
  {
    hide BlockCost, Ranks, Listed;
    if b < |s.exec| && !s.exec[b] {
      UnreachedDrops(p, plan, s.exec, b);
      BlocksListedOne(p, plan, s.blockWl, b);
    }
  }

  lemma MarkEdgePays<D>(p: Problem<D>, plan: Plan, s: State<D>, b: nat, si: nat, rank: D -> nat)
    requires Sized(p, s) && InLive(plan, s)
    ensures Within(p, plan, s, MarkEdge(s, b, si), rank, 0)
  { }

  lemma TargetLive<D>(p: Problem<D>, plan: Plan, b: nat, t: Inst, si: nat)
    requires LiveOk(p, plan) && si < EdgeCount(t.kind) && SuccessorsOf(p.f, b) == Successors(t.kind)
    requires b < |plan.live| && plan.live[b]
    ensures Target(t, si) < |plan.live| && plan.live[Target(t, si)]
  {
    assert LeadsToLive(p, plan, b) && Target(t, si) in SuccessorsOf(p.f, b);
  }

  lemma TakeEdgePays<D(!new)>(p: Problem<D>, plan: Plan, s: State<D>, b: nat, t: Inst, si: nat, rank: D -> nat)
    requires WideningStops(p.dom, rank) && Going(p, plan, s) && OperandsFit(t) && si < EdgeCount(t.kind)
    requires b < |p.f.blocks| && SuccessorsOf(p.f, b) == Successors(t.kind) && b < |plan.live| && plan.live[b]
    ensures Within(p, plan, s, TakeEdge(p, s, b, t, si), rank, EdgeCost(p, plan, t, si))
  {
    hide ProblemOk, Budget, InLive, WideningStops, OperandsFit, Sized, UpdateParams, MarkEdge, MarkBlock, ParamsCost;
    var target := Target(t, si);
    TargetLive(p, plan, b, t, si);
    var s1 := MarkEdge(s, b, si);
    MarkEdgePays(p, plan, s, b, si, rank);
    UpdateParamsPay(p, plan, s1, t, si, |ParamsOf(p, target)|, rank);
    var s2 := UpdateParams(p, s1, t, si, |ParamsOf(p, target)|);
    MarkBlockPays(p, plan, s2, target, rank);
  }

  function TakenCost<D>(p: Problem<D>, plan: Plan, t: Inst, sis: seq<nat>, n: nat): nat
    requires n <= |sis| && forall k :: 0 <= k < |sis| ==> sis[k] < EdgeCount(t.kind)
  {
    if n == 0 then 0 else TakenCost(p, plan, t, sis, n - 1) + EdgeCost(p, plan, t, sis[n - 1])
  }

  lemma {:induction false} TakeEdgesPay<D(!new)>(p: Problem<D>, plan: Plan, s: State<D>, b: nat, t: Inst, sis: seq<nat>, n: nat,
                                                 rank: D -> nat)
    requires WideningStops(p.dom, rank) && Going(p, plan, s) && OperandsFit(t)
    requires b < |p.f.blocks| && SuccessorsOf(p.f, b) == Successors(t.kind) && b < |plan.live| && plan.live[b]
    requires n <= |sis| && forall k :: 0 <= k < |sis| ==> sis[k] < EdgeCount(t.kind)
    ensures Within(p, plan, s, TakeEdges(p, s, b, t, sis, n), rank, TakenCost(p, plan, t, sis, n))
  {
    hide ProblemOk, LiveOk, Budget, InLive, WideningStops, OperandsFit, Sized, TakeEdge, EdgeCost;
    if n > 0 {
      TakeEdgesPay(p, plan, s, b, t, sis, n - 1, rank);
      TakeEdgePays(p, plan, TakeEdges(p, s, b, t, sis, n - 1), b, t, sis[n - 1], rank);
    }
  }

  lemma {:induction false} TakenSame<D>(p: Problem<D>, plan: Plan, t: Inst, a: seq<nat>, b: seq<nat>, n: nat)
    requires n <= |a| && n <= |b| && a[..n] == b[..n]
    requires forall k :: 0 <= k < |a| ==> a[k] < EdgeCount(t.kind)
    requires forall k :: 0 <= k < |b| ==> b[k] < EdgeCount(t.kind)
    ensures TakenCost(p, plan, t, a, n) == TakenCost(p, plan, t, b, n)
  {
    hide EdgeCost;
    if n > 0 {
      assert a[n - 1] == a[..n][n - 1] == b[..n][n - 1] == b[n - 1];
      assert a[..n - 1] == a[..n][..n - 1] == b[..n][..n - 1] == b[..n - 1];
      TakenSame(p, plan, t, a, b, n - 1);
    }
  }

  /** Each edge is feasible at most once. */
  lemma {:induction false} FeasibleCost<D>(p: Problem<D>, plan: Plan, s: State<D>, t: Inst, n: nat)
    requires n <= EdgeCount(t.kind)
    ensures var sis := FeasibleEdges(p, s, t, n);
            && (forall k :: 0 <= k < |sis| ==> sis[k] < EdgeCount(t.kind))
            && TakenCost(p, plan, t, sis, |sis|) <= EdgesCost(p, plan, t, n)
  {
    hide EdgeCost, Feasible, TakenCost, FeasibleEdges;
    FeasibleStep(p, s, t, n);
    if n > 0 {
      FeasibleCost(p, plan, s, t, n - 1);
      var before := FeasibleEdges(p, s, t, n - 1);
      if FeasibleEdges(p, s, t, n) != before { TakenOneMore(p, plan, t, before, n - 1); }
    } else {
      TakenNone(p, plan, t);
    }
  }

  lemma TakenNone<D>(p: Problem<D>, plan: Plan, t: Inst)
    ensures TakenCost(p, plan, t, [], 0) == 0
  { }

  lemma FeasibleStep<D>(p: Problem<D>, s: State<D>, t: Inst, n: nat)
    requires n <= EdgeCount(t.kind)
    ensures n == 0 ==> FeasibleEdges(p, s, t, n) == []
    ensures n > 0 ==> FeasibleEdges(p, s, t, n) == FeasibleEdges(p, s, t, n - 1)
                      || FeasibleEdges(p, s, t, n) == FeasibleEdges(p, s, t, n - 1) + [n - 1]
  { }

  lemma TakenOneMore<D>(p: Problem<D>, plan: Plan, t: Inst, sis: seq<nat>, si: nat)
    requires si < EdgeCount(t.kind) && forall k :: 0 <= k < |sis| ==> sis[k] < EdgeCount(t.kind)
    ensures TakenCost(p, plan, t, sis + [si], |sis| + 1) == TakenCost(p, plan, t, sis, |sis|) + EdgeCost(p, plan, t, si)
  {
    hide EdgeCost;
    assert (sis + [si])[..|sis|] == sis == sis[..|sis|];
    TakenSame(p, plan, t, sis + [si], sis, |sis|);
  }

  lemma VisitTerminatorPays<D(!new)>(p: Problem<D>, plan: Plan, s: State<D>, b: nat, rank: D -> nat)
    requires WideningStops(p.dom, rank) && Going(p, plan, s) && b < |p.f.blocks| && b < |plan.live| && plan.live[b]
    ensures Within(p, plan, s, VisitTerminator(p, s, b), rank,
                   match p.f.blocks[b].term case None => 0 case Some(i) => InstCost(p, plan, i))
  {
    hide LiveOk, Budget, InLive, WideningStops, Sized, TakeEdges, FeasibleEdges, EdgesCost, TakenCost, WellFormedFunction;
    if p.f.blocks[b].term.Some? {
      TermAt(p, b);
      var t := p.f.insts[p.f.blocks[b].term.value];
      var sis := FeasibleEdges(p, s, t, EdgeCount(t.kind));
      FeasibleCost(p, plan, s, t, EdgeCount(t.kind));
      TakeEdgesPay(p, plan, s, b, t, sis, |sis|, rank);
    }
  }

  lemma VisitBlockPays<D(!new)>(p: Problem<D>, plan: Plan, s: State<D>, b: nat, rank: D -> nat)
    requires WideningStops(p.dom, rank) && Going(p, plan, s) && b < |p.f.blocks| && b < |plan.live| && plan.live[b]
    ensures Within(p, plan, s, VisitBlock(p, s, b), rank, BlockCost(p, plan, b) - 1)
  {
    hide LiveOk, Budget, InLive, WideningStops, Sized, VisitInsts, VisitTerminator, InstsCost, InstCost;
    assert WellFormedBlock(p.f, b);
    var list := p.f.blocks[b].insts;
    VisitInstsPay(p, plan, s, list, |list|, rank);
    VisitTerminatorPays(p, plan, VisitInsts(p, s, list, |list|), b, rank);
  }

  lemma ProcessUsePays<D(!new)>(p: Problem<D>, plan: Plan, s: State<D>, i: nat, rank: D -> nat)
    requires WideningStops(p.dom, rank) && Going(p, plan, s) && i < |p.f.insts|
    ensures Within(p, plan, s, ProcessUse(p, s, i), rank, if MayRun(p, plan, i) then InstCost(p, plan, i) else 0)
  {
    hide LiveOk, Budget, WideningStops, VisitTerminator, VisitInst, InstCost, WellFormedFunction;
    match p.instBlock[i]
    case None =>
    case Some(b) =>
      assert Placed(p.f, i, b);
      if b < |s.exec| && s.exec[b] {
        if p.f.insts[i].kind.IsTerminator() {
          PlacedAsTerm(p, i, b);
          VisitTerminatorPays(p, plan, s, b, rank);
        } else {
          VisitInstPays(p, plan, s, i, rank);
        }
      }
  }

  lemma PlacedAsTerm<D>(p: Problem<D>, i: nat, b: nat)
    requires ProblemOk(p) && i < |p.f.insts| && Placed(p.f, i, b) && p.f.insts[i].kind.IsTerminator()
    ensures p.f.blocks[b].term == Some(i)
  {
    assert WellFormedBlock(p.f, b);
  }

  lemma {:induction false} ProcessUsesPay<D(!new)>(p: Problem<D>, plan: Plan, s: State<D>, us: seq<nat>, n: nat, rank: D -> nat)
    requires WideningStops(p.dom, rank) && Going(p, plan, s) && n <= |us| && forall i :: i in us ==> i < |p.f.insts|
    ensures Within(p, plan, s, ProcessUses(p, s, us, n), rank, UsesCost(p, plan, us, n))
  {
    hide ProblemOk, LiveOk, Budget, InLive, Sized, WideningStops, ProcessUse, InstCost, MayRun;
    if n > 0 {
      ProcessUsesPay(p, plan, s, us, n - 1, rank);
      assert us[n - 1] in us;
      ProcessUsePays(p, plan, ProcessUses(p, s, us, n - 1), us[n - 1], rank);
    }
  }

  /** Every iteration uses up some of the budget, whichever worklist entry it takes. */
  lemma StepSpends<D(!new)>(p: Problem<D>, plan: Plan, s: State<D>, c: Choice, rank: D -> nat)
    requires WideningStops(p.dom, rank) && Balanced(p, plan) && Going(p, plan, s) && Enabled(s, c)
    ensures Going(p, plan, StepAt(p, s, c))
    ensures Budget(p, plan, StepAt(p, s, c), rank) < Budget(p, plan, s, rank)
  {
    match c
    case TakeBlock(k) => BlockSpends(p, plan, s, k, rank);
    case TakeValue(k) => ValueSpends(p, plan, s, k, rank);
  }

  lemma BlockSpends<D(!new)>(p: Problem<D>, plan: Plan, s: State<D>, k: nat, rank: D -> nat)
    requires WideningStops(p.dom, rank) && Going(p, plan, s) && k < |s.blockWl|
    ensures Going(p, plan, StepAt(p, s, TakeBlock(k)))
    ensures Budget(p, plan, StepAt(p, s, TakeBlock(k)), rank) < Budget(p, plan, s, rank)
  {
    hide ProblemOk, LiveOk, WideningStops, VisitBlock, BlocksListed, Listed, Unreached, Ranks, BlockCost;
    var b := s.blockWl[k];
    assert b in s.blockWl;
    var s0 := s.(blockWl := Without(s.blockWl, k));
    BlocksListedWithout(p, plan, s.blockWl, k);
    VisitBlockPays(p, plan, s0, b, rank);
  }

  lemma ValueSpends<D(!new)>(p: Problem<D>, plan: Plan, s: State<D>, k: nat, rank: D -> nat)
    requires WideningStops(p.dom, rank) && Balanced(p, plan) && Going(p, plan, s) && k < |s.ssaWl|
    ensures Going(p, plan, StepAt(p, s, TakeValue(k)))
    ensures Budget(p, plan, StepAt(p, s, TakeValue(k)), rank) < Budget(p, plan, s, rank)
  {
    hide ProblemOk, LiveOk, WideningStops, ProcessUses, BlocksListed, Listed, Unreached, Ranks, UsesCost;
    var v := s.ssaWl[k];
    assert v in s.ssaWl;
    var s0 := s.(ssaWl := Without(s.ssaWl, k));
    ListedWithout(plan, s.ssaWl, k);
    UsersFit(p, v);
    assert ValueBalanced(p, plan, v);
    ProcessUsesPay(p, plan, s0, Users(p.f.uses[v]), |p.f.uses[v]|, rank);
  }

  lemma UsersFit<D>(p: Problem<D>, v: nat)
    requires ProblemOk(p) && v < |p.f.values|
    ensures v < |p.f.uses| && forall i :: i in Users(p.f.uses[v]) ==> i < |p.f.insts|
  {
    UsersInRange(p.f, v);
  }

  lemma StartGoes<D>(p: Problem<D>, plan: Plan)
    requires ProblemOk(p) && LiveOk(p, plan)
    ensures Going(p, plan, Start(p))
  { }

  /** No order can be served for ever, on any lattice. */
  lemma {:induction false} WidenedIsBounded<D(!new)>(p: Problem<D>, plan: Plan, choices: seq<Choice>, rank: D -> nat)
    requires WideningStops(p.dom, rank) && ProblemOk(p) && LiveOk(p, plan) && Balanced(p, plan)
    requires RunChoices(p, choices).Some?
    ensures Going(p, plan, RunChoices(p, choices).value)
    ensures |choices| + Budget(p, plan, RunChoices(p, choices).value, rank) <= Budget(p, plan, Start(p), rank)
  {
    hide WideningStops, ProblemOk, LiveOk, Balanced, Going, Budget;
    if choices == [] {
      StartGoes(p, plan);
    } else {
      var before := RunChoices(p, choices[..|choices| - 1]).value;
      WidenedIsBounded(p, plan, choices[..|choices| - 1], rank);
      StepSpends(p, plan, before, choices[|choices| - 1], rank);
    }
  }
}
