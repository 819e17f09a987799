/** Why the sparse solver stops, and why what it computes is the least solution
    of the whole-function equations whatever order its worklists are served. */
module SolverLeast {
  import opened Wrappers
  import opened Ir
  import opened AbstractDomain
  import opened SolverSteps
  import opened SolverSound

  // ------------------------------------------------------------- termination

  /** Every instruction's stored result is at most its current transfer, so a
      revisit can only raise it. */
  ghost predicate Rising<D>(p: Problem<D>, s: State<D>) {
    && ProblemOk(p) && Sized(p, s)
    && forall i: nat :: i < |p.f.insts| && p.f.insts[i].result.Some?
         ==> p.dom.le(Val(p, s, p.f.insts[i].result.value), Transferred(p, s, i))
  }

  /** How far the values and blocks of a state can still climb. */
  ghost function ValuesLeft<D>(vals: seq<D>, height: D -> nat): nat {
    if vals == [] then 0 else ValuesLeft(vals[..|vals| - 1], height) + height(vals[|vals| - 1])
  }

  ghost function BlocksLeft(exec: seq<bool>): nat {
    if exec == [] then 0 else BlocksLeft(exec[..|exec| - 1]) + (if exec[|exec| - 1] then 0 else 1)
  }

  ghost function Left<D>(s: State<D>, height: D -> nat): nat {
    ValuesLeft(s.vals, height) + BlocksLeft(s.exec)
  }

  lemma {:induction false} ValuesLeftDrops<D>(vals: seq<D>, height: D -> nat, v: nat, d: D)
    requires v < |vals|
    ensures ValuesLeft(vals[v := d], height) == ValuesLeft(vals, height) - height(vals[v]) + height(d)
  {
    var m := |vals| - 1;
    if v == m {
      assert vals[v := d][..m] == vals[..m];
    } else {
      assert vals[v := d][..m] == vals[..m][v := d];
      ValuesLeftDrops(vals[..m], height, v, d);
    }
  }

  lemma {:induction false} BlocksLeftDrops(exec: seq<bool>, b: nat)
    requires b < |exec| && !exec[b]
    ensures BlocksLeft(exec[b := true]) == BlocksLeft(exec) - 1
  {
    var m := |exec| - 1;
    if b == m {
      assert exec[b := true][..m] == exec[..m];
    } else {
      assert exec[b := true][..m] == exec[..m][b := true];
      BlocksLeftDrops(exec[..m], b);
    }
  }

  /** Serving a worklist entry costs one, storing a raised value or marking a
      block pays two and adds one entry. */
  ghost function Weight<D>(s: State<D>, height: D -> nat): nat {
    2 * Left(s, height) + |s.blockWl| + |s.ssaWl|
  }

  /** All the laws the least-solution results rest on. */
  ghost predicate Laws<D(!new)>(dom: Domain<D>) {
    UpperBounds(dom) && MonotoneTransfer(dom) && LeastJoins(dom)
  }

  lemma RaiseKeepsRising<D(!new)>(p: Problem<D>, s: State<D>, v: nat, d: D)
    requires UpperBounds(p.dom) && MonotoneTransfer(p.dom) && Rising(p, s) && v < |s.vals| && p.dom.le(s.vals[v], d)
    requires forall i: nat :: p.f.values[v] == FromInst(i) && i < |p.f.insts| ==> d == Transferred(p, s, i)
    ensures Rising(p, SetVal(s, v, d))
  {
    var s' := SetVal(s, v, d);
    forall i: nat | i < |p.f.insts| && p.f.insts[i].result.Some?
      ensures p.dom.le(Val(p, s', p.f.insts[i].result.value), Transferred(p, s', i))
    {
      assert WellFormedInst(p.f, i);
      var before, after := Operands(p, s, p.f.insts[i].operands), Operands(p, s', p.f.insts[i].operands);
      assert PointwiseLe(p.dom, before, after);
      assert p.dom.le(Transferred(p, s, i), Transferred(p, s', i));
    }
  }

  lemma RaiseProgress<D(!new)>(p: Problem<D>, s: State<D>, v: nat, d: D, height: D -> nat)
    requires FiniteHeight(p.dom, height) && v < |s.vals| && p.dom.le(s.vals[v], d)
    ensures Weight(SetVal(s, v, d), height) <= Weight(s, height)
  {
    if d != s.vals[v] { ValuesLeftDrops(s.vals, height, v, d); }
  }

  /** One sub-step: it keeps `Rising` and adds no weight. */
  ghost predicate Climbs<D>(p: Problem<D>, s: State<D>, s': State<D>, height: D -> nat) {
    Rising(p, s') && Weight(s', height) <= Weight(s, height)
  }

  lemma VisitInstClimbs<D(!new)>(p: Problem<D>, s: State<D>, i: nat, height: D -> nat)
    requires Laws(p.dom) && FiniteHeight(p.dom, height) && Rising(p, s) && i < |p.f.insts|
    ensures Climbs(p, s, VisitInst(p, s, i), height)
  {
    assert WellFormedInst(p.f, i);
    if p.f.insts[i].result.Some? {
      var r := p.f.insts[i].result.value;
      RaiseKeepsRising(p, s, r, Transferred(p, s, i));
      RaiseProgress(p, s, r, Transferred(p, s, i), height);
    }
  }

  lemma {:induction false} VisitInstsClimb<D(!new)>(p: Problem<D>, s: State<D>, list: seq<nat>, n: nat, height: D -> nat)
    requires Laws(p.dom) && FiniteHeight(p.dom, height) && Rising(p, s)
    requires n <= |list| && forall i :: i in list ==> i < |p.f.insts|
    ensures Climbs(p, s, VisitInsts(p, s, list, n), height)
  {
    hide Laws, FiniteHeight, Rising, Weight, VisitInst;
    if n > 0 {
      assert list[n - 1] in list;
      VisitInstsClimb(p, s, list, n - 1, height);
      VisitInstClimbs(p, VisitInsts(p, s, list, n - 1), list[n - 1], height);
    }
  }

  lemma {:induction false} UpdateParamsClimb<D(!new)>(p: Problem<D>, s: State<D>, t: Inst, si: nat, n: nat, height: D -> nat)
    requires Laws(p.dom) && FiniteHeight(p.dom, height) && Rising(p, s)
    requires OperandsFit(t) && si < EdgeCount(t.kind) && n <= |ParamsOf(p, Target(t, si))|
    ensures Climbs(p, s, UpdateParams(p, s, t, si, n), height)
  {
    hide UpperBounds, MonotoneTransfer, LeastJoins, FiniteHeight, Rising, Weight, OperandsFit, ArgVal, Merged, Target, EdgeCount,
         ParamsOf, SetVal;
    if n > 0 {
      UpdateParamsClimb(p, s, t, si, n - 1, height);
      var s1 := UpdateParams(p, s, t, si, n - 1);
      var target := Target(t, si);
      RisingParam(p, s1, target, n - 1);
      var param := ParamsOf(p, target)[n - 1];
      var arg := ArgVal(p, s1, t, si, n - 1);
      MergedAbove(p, target, Val(p, s1, param), arg);
      var d := Merged(p, target, Val(p, s1, param), arg);
      RaiseKeepsRising(p, s1, param, d);
      RaiseProgress(p, s1, param, d, height);
    }
  }

  lemma RisingParam<D(!new)>(p: Problem<D>, s: State<D>, b: nat, k: nat)
    requires Rising(p, s) && k < |ParamsOf(p, b)|
    ensures |s.vals| == |p.f.values| && ParamsOf(p, b)[k] < |s.vals| && p.f.values[ParamsOf(p, b)[k]].Param?
  {
    ParamAt(p, s, b, k);
  }

  lemma SameValuesClimb<D(!new)>(p: Problem<D>, s: State<D>, s': State<D>, height: D -> nat)
    requires Rising(p, s) && Sized(p, s') && s'.vals == s.vals && Weight(s', height) <= Weight(s, height)
    ensures Climbs(p, s, s', height)
  {
    forall i: nat | i < |p.f.insts| && p.f.insts[i].result.Some?
      ensures p.dom.le(Val(p, s', p.f.insts[i].result.value), Transferred(p, s', i))
    {
      assert Operands(p, s, p.f.insts[i].operands) == Operands(p, s', p.f.insts[i].operands);
    }
  }

  lemma TakeEdgeClimbs<D(!new)>(p: Problem<D>, s: State<D>, b: nat, t: Inst, si: nat, height: D -> nat)
    requires Laws(p.dom) && FiniteHeight(p.dom, height) && Rising(p, s)
    requires b < |s.edges| && si < |s.edges[b]| && OperandsFit(t) && si < EdgeCount(t.kind)
    ensures Climbs(p, s, TakeEdge(p, s, b, t, si), height)
  {
    hide Laws, FiniteHeight, Rising, Weight, OperandsFit, Target, EdgeCount, ParamsOf, UpdateParams, MarkEdge, MarkBlock;
    var target := Target(t, si);
    var n := |ParamsOf(p, target)|;
    var s1 := MarkEdge(s, b, si);
    MarkEdgeClimbs(p, s, b, si, height);
    UpdateParamsClimb(p, s1, t, si, n, height);
    MarkBlockClimbs(p, UpdateParams(p, s1, t, si, n), target, height);
  }

  lemma MarkEdgeClimbs<D(!new)>(p: Problem<D>, s: State<D>, b: nat, si: nat, height: D -> nat)
    requires Rising(p, s)
    ensures Climbs(p, s, MarkEdge(s, b, si), height)
  {
    hide Rising;
    RisingSized(p, s);
    SameValuesClimb(p, s, MarkEdge(s, b, si), height);
  }

  lemma MarkBlockClimbs<D(!new)>(p: Problem<D>, s: State<D>, b: nat, height: D -> nat)
    requires Rising(p, s)
    ensures Climbs(p, s, MarkBlock(s, b), height)
  {
    hide Rising;
    RisingSized(p, s);
    if MarkBlock(s, b) != s { BlocksLeftDrops(s.exec, b); }
    SameValuesClimb(p, s, MarkBlock(s, b), height);
  }

  lemma RisingSized<D(!new)>(p: Problem<D>, s: State<D>)
    requires Rising(p, s)
    ensures ProblemOk(p) && Sized(p, s)
  { }

  lemma {:induction false} TakeEdgesClimb<D(!new)>(p: Problem<D>, s: State<D>, b: nat, t: Inst, sis: seq<nat>, n: nat,
                                                   height: D -> nat)
    requires Laws(p.dom) && FiniteHeight(p.dom, height) && Rising(p, s)
    requires b < |p.f.blocks| && OperandsFit(t) && SuccessorsOf(p.f, b) == Successors(t.kind)
    requires n <= |sis| && forall k :: 0 <= k < |sis| ==> sis[k] < EdgeCount(t.kind)
    ensures Climbs(p, s, TakeEdges(p, s, b, t, sis, n), height)
  {
    hide Laws, FiniteHeight, Rising, Weight, OperandsFit, EdgeCount, TakeEdge;
    if n > 0 {
      TakeEdgesClimb(p, s, b, t, sis, n - 1, height);
      RisingEdges(p, TakeEdges(p, s, b, t, sis, n - 1), b, t);
      TakeEdgeClimbs(p, TakeEdges(p, s, b, t, sis, n - 1), b, t, sis[n - 1], height);
    }
  }

  lemma RisingEdges<D(!new)>(p: Problem<D>, s: State<D>, b: nat, t: Inst)
    requires Rising(p, s) && b < |p.f.blocks| && SuccessorsOf(p.f, b) == Successors(t.kind)
    ensures b < |s.edges| && |s.edges[b]| == EdgeCount(t.kind)
  { }

  lemma VisitTerminatorClimbs<D(!new)>(p: Problem<D>, s: State<D>, b: nat, height: D -> nat)
    requires Laws(p.dom) && FiniteHeight(p.dom, height) && ProblemOk(p) && Rising(p, s)
    ensures Climbs(p, s, VisitTerminator(p, s, b), height)
  {
    hide Laws, FiniteHeight, Rising, Weight, OperandsFit, TakeEdges, WellFormedFunction;
    if b < |p.f.blocks| && p.f.blocks[b].term.Some? {
      RisingSized(p, s);
      TermAt(p, b);
      var t := p.f.insts[p.f.blocks[b].term.value];
      var sis := FeasibleEdges(p, s, t, EdgeCount(t.kind));
      TakeEdgesClimb(p, s, b, t, sis, |sis|, height);
    }
  }

  lemma {:induction false} ProcessUsesClimb<D(!new)>(p: Problem<D>, s: State<D>, us: seq<nat>, n: nat, height: D -> nat)
    requires Laws(p.dom) && FiniteHeight(p.dom, height) && Rising(p, s)
    requires ProblemOk(p) && n <= |us| && forall i :: i in us ==> i < |p.f.insts|
    ensures Climbs(p, s, ProcessUses(p, s, us, n), height)
  {
    hide Laws, FiniteHeight, Rising, Weight, VisitTerminator, VisitInst, WellFormedFunction;
    if n > 0 {
      assert us[n - 1] in us;
      ProcessUsesClimb(p, s, us, n - 1, height);
      var s1 := ProcessUses(p, s, us, n - 1);
      if p.instBlock[us[n - 1]].Some? {
        VisitTerminatorClimbs(p, s1, p.instBlock[us[n - 1]].value, height);
      }
      VisitInstClimbs(p, s1, us[n - 1], height);
    }
  }

  /** Every iteration lowers the weight, whichever worklist entry it takes. */
  lemma StepDescends<D(!new)>(p: Problem<D>, s: State<D>, c: Choice, height: D -> nat)
    requires Laws(p.dom) && FiniteHeight(p.dom, height) && Rising(p, s) && Enabled(s, c)
    ensures Rising(p, StepAt(p, s, c)) && Weight(StepAt(p, s, c), height) < Weight(s, height)
  {
    match c
    case TakeBlock(k) =>
      var b := s.blockWl[k];
      assert b in s.blockWl;
      var s0 := s.(blockWl := Without(s.blockWl, k));
      assert Sized(p, s0);
      PopRising(p, s, s0);
      assert WellFormedBlock(p.f, b);
      var list := p.f.blocks[b].insts;
      VisitInstsClimb(p, s0, list, |list|, height);
      VisitTerminatorClimbs(p, VisitInsts(p, s0, list, |list|), b, height);
    case TakeValue(k) =>
      var v := s.ssaWl[k];
      assert v in s.ssaWl;
      var s0 := s.(ssaWl := Without(s.ssaWl, k));
      assert Sized(p, s0);
      PopRising(p, s, s0);
      ProcessUsesClimb(p, s0, Users(p.f.uses[v]), |p.f.uses[v]|, height);
  }

  lemma PopRising<D(!new)>(p: Problem<D>, s: State<D>, s0: State<D>)
    requires Rising(p, s) && Sized(p, s0) && s0.vals == s.vals
    ensures Rising(p, s0)
  {
    forall i: nat | i < |p.f.insts| && p.f.insts[i].result.Some?
      ensures p.dom.le(Val(p, s0, p.f.insts[i].result.value), Transferred(p, s0, i))
    {
      assert Operands(p, s, p.f.insts[i].operands) == Operands(p, s0, p.f.insts[i].operands);
    }
  }

  lemma StartRising<D(!new)>(p: Problem<D>)
    requires UpperBounds(p.dom) && ProblemOk(p)
    ensures Rising(p, Start(p))
  {
    forall i: nat | i < |p.f.insts| && p.f.insts[i].result.Some?
      ensures p.dom.le(Val(p, Start(p), p.f.insts[i].result.value), Transferred(p, Start(p), i))
    {
      assert WellFormedInst(p.f, i);
    }
  }

  // ----------------------------------------------------------- least solution

  /** A solution of the naive whole-function equations: seeds, transfers and
      edge arguments are all absorbed, and feasible edges are taken. */
  ghost predicate IsSolution<D>(p: Problem<D>, s: State<D>) {
    && ProblemOk(p) && Sized(p, s) && s.exec[p.f.entry.value] && SeedsBelow(p, s)
    && forall i: nat, b: nat :: i < |p.f.insts| && Placed(p.f, i, b) && s.exec[b] ==> Absorbed(p, s, i, b)
  }

  ghost predicate Absorbed<D>(p: Problem<D>, s: State<D>, i: nat, b: nat)
    requires ProblemOk(p) && i < |p.f.insts|
  {
    assert WellFormedInst(p.f, i);
    if p.f.insts[i].kind.IsTerminator() then TermOk(p, s, b, p.f.insts[i])
    else p.f.insts[i].result.Some? ==> p.dom.le(Transferred(p, s, i), Val(p, s, p.f.insts[i].result.value))
  }

  /** `s` lies below `sol`, value by value, block by block, edge by edge. */
  ghost predicate Below<D>(p: Problem<D>, s: State<D>, sol: State<D>) {
    && Sized(p, s) && Sized(p, sol)
    && (forall v: nat :: v < |s.vals| ==> p.dom.le(s.vals[v], sol.vals[v]))
    && (forall b: nat :: b < |s.exec| && s.exec[b] ==> sol.exec[b])
    && (forall b: nat, si: nat :: b < |s.edges| && si < |s.edges[b]| && s.edges[b][si] ==> sol.edges[b][si])
  }

  /** A stopped state is a solution. */
  lemma StoppedIsSolution<D(!new)>(p: Problem<D>, s: State<D>)
    requires UpperBounds(p.dom) && Inv(p, s, {}) && Stopped(s)
    ensures IsSolution(p, s)
  {
    forall i: nat, b: nat | i < |p.f.insts| && Placed(p.f, i, b) && s.exec[b] ensures Absorbed(p, s, i, b) {
      assert WellFormedInst(p.f, i);
      assert Live(p, s, i, b) && Covered(p, s, i, b);
    }
  }

  lemma TransferredBelow<D(!new)>(p: Problem<D>, s: State<D>, sol: State<D>, i: nat)
    requires MonotoneTransfer(p.dom) && ProblemOk(p) && Below(p, s, sol) && i < |p.f.insts|
    ensures p.dom.le(Transferred(p, s, i), Transferred(p, sol, i))
  {
    assert WellFormedInst(p.f, i);
    var vs := p.f.insts[i].operands;
    forall k | 0 <= k < |vs| ensures p.dom.le(Operands(p, s, vs)[k], Operands(p, sol, vs)[k]) {
      assert vs[k] in vs;
    }
    assert PointwiseLe(p.dom, Operands(p, s, vs), Operands(p, sol, vs));
  }

  lemma VisitInstBelow<D(!new)>(p: Problem<D>, s: State<D>, sol: State<D>, i: nat, b: nat)
    requires Laws(p.dom) && IsSolution(p, sol) && Below(p, s, sol)
    requires i < |p.f.insts| && Placed(p.f, i, b) && s.exec[b] && !p.f.insts[i].kind.IsTerminator()
    ensures Below(p, VisitInst(p, s, i), sol) && VisitInst(p, s, i).exec == s.exec
  {
    TransferredBelow(p, s, sol, i);
    assert WellFormedInst(p.f, i);
    assert Absorbed(p, sol, i, b);
    assert p.f.insts[i].result.Some? ==>
        p.dom.le(Transferred(p, s, i), Val(p, sol, p.f.insts[i].result.value));
  }

  lemma {:induction false} VisitInstsBelow<D(!new)>(p: Problem<D>, s: State<D>, sol: State<D>, b: nat, n: nat)
    requires Laws(p.dom) && IsSolution(p, sol) && Below(p, s, sol) && b < |p.f.blocks| && s.exec[b]
    requires n <= |p.f.blocks[b].insts|
    requires forall i :: i in p.f.blocks[b].insts ==> i < |p.f.insts| && !p.f.insts[i].kind.IsTerminator()
    ensures Below(p, VisitInsts(p, s, p.f.blocks[b].insts, n), sol)
    ensures VisitInsts(p, s, p.f.blocks[b].insts, n).exec == s.exec
  {
    hide Laws, IsSolution, Below, VisitInst;
    var list := p.f.blocks[b].insts;
    if n > 0 {
      assert list[n - 1] in list;
      VisitInstsBelow(p, s, sol, b, n - 1);
      VisitInstBelow(p, VisitInsts(p, s, list, n - 1), sol, list[n - 1], b);
    }
  }

  lemma {:induction false} UpdateParamsBelow<D(!new)>(p: Problem<D>, s: State<D>, sol: State<D>, t: Inst, si: nat, n: nat)
    requires Laws(p.dom) && ProblemOk(p) && Below(p, s, sol)
    requires OperandsFit(t) && si < EdgeCount(t.kind) && n <= |ParamsOf(p, Target(t, si))|
    requires ParamsAbove(p, sol, t, si, |ParamsOf(p, Target(t, si))|)
    requires forall v :: v in t.operands ==> v < |p.f.values|
    ensures Below(p, UpdateParams(p, s, t, si, n), sol) && UpdateParams(p, s, t, si, n).exec == s.exec
  {
    hide MonotoneTransfer, LeastJoins, UpperBounds, ProblemOk, Merged, ArgVal, Below, OperandsFit, Target, EdgeCount, ParamsOf, SetVal;
    if n > 0 {
      UpdateParamsBelow(p, s, sol, t, si, n - 1);
      var s1 := UpdateParams(p, s, t, si, n - 1);
      var target := Target(t, si);
      ParamInRange(p, target, n - 1);
      var param := ParamsOf(p, target)[n - 1];
      var arg := ArgVal(p, s1, t, si, n - 1);
      BelowSized(p, s1, sol);
      ArgBelow(p, s1, sol, t, si, n - 1);
      MergedBelow(p, target, s1.vals[param], arg, ArgVal(p, sol, t, si, n - 1), sol.vals[param]);
      SetBelow(p, s1, sol, param, Merged(p, target, s1.vals[param], arg));
    }
  }

  lemma BelowSized<D>(p: Problem<D>, s: State<D>, sol: State<D>)
    requires Below(p, s, sol)
    ensures |s.vals| == |sol.vals| == |p.f.values| && forall v: nat :: v < |s.vals| ==> p.dom.le(s.vals[v], sol.vals[v])
  { }

  lemma SetBelow<D>(p: Problem<D>, s: State<D>, sol: State<D>, v: nat, d: D)
    requires Below(p, s, sol) && v < |sol.vals| && p.dom.le(d, sol.vals[v])
    ensures Below(p, SetVal(s, v, d), sol) && SetVal(s, v, d).exec == s.exec
  { }

  lemma ParamInRange<D(!new)>(p: Problem<D>, b: nat, k: nat)
    requires ProblemOk(p) && k < |ParamsOf(p, b)|
    ensures ParamsOf(p, b)[k] < |p.f.values|
  {
    assert WellFormedBlock(p.f, b);
  }

  lemma ArgBelow<D(!new)>(p: Problem<D>, s: State<D>, sol: State<D>, t: Inst, si: nat, k: nat)
    requires UpperBounds(p.dom) && Below(p, s, sol) && OperandsFit(t) && si < EdgeCount(t.kind)
    requires forall v :: v in t.operands ==> v < |p.f.values|
    ensures p.dom.le(ArgVal(p, s, t, si, k), ArgVal(p, sol, t, si, k))
  {
    if k < |EdgeArgs(t, si)| { assert EdgeArgs(t, si)[k] in t.operands; }
  }

  /** A merge stays below whatever both the old value and the argument do. */
  lemma MergedBelow<D(!new)>(p: Problem<D>, target: nat, old_: D, arg: D, solArg: D, bound: D)
    requires Laws(p.dom) && p.dom.le(old_, bound) && p.dom.le(arg, solArg) && p.dom.le(solArg, bound)
    ensures p.dom.le(Merged(p, target, old_, arg), bound)
  {
    var joined := p.dom.join(old_, arg);
    assert p.dom.le(arg, bound);
    assert p.dom.le(joined, bound);
    assert p.dom.widen(old_, joined) == p.dom.join(old_, joined);
  }

  lemma TakeEdgeBelow<D(!new)>(p: Problem<D>, s: State<D>, sol: State<D>, b: nat, t: Inst, si: nat)
    requires Laws(p.dom) && ProblemOk(p) && Below(p, s, sol) && OperandsFit(t) && si < EdgeCount(t.kind)
    requires b < |p.f.blocks| && EdgeOk(p, sol, b, t, si)
    requires forall v :: v in t.operands ==> v < |p.f.values|
    ensures Below(p, TakeEdge(p, s, b, t, si), sol)
    ensures forall b': nat :: b' < |s.exec| && s.exec[b'] ==> TakeEdge(p, s, b, t, si).exec[b']
  {
    hide Laws, ProblemOk, Below, ParamsAbove, OperandsFit, UpdateParams, MarkEdge, MarkBlock, Target, EdgeCount, ParamsOf;
    var s1 := MarkEdge(s, b, si);
    MarkEdgeBelow(p, s, sol, b, si);
    UpdateParamsBelow(p, s1, sol, t, si, |ParamsOf(p, Target(t, si))|);
    MarkBlockBelow(p, UpdateParams(p, s1, t, si, |ParamsOf(p, Target(t, si))|), sol, Target(t, si));
  }

  lemma MarkEdgeBelow<D>(p: Problem<D>, s: State<D>, sol: State<D>, b: nat, si: nat)
    requires Below(p, s, sol) && b < |sol.edges| && si < |sol.edges[b]| && sol.edges[b][si]
    ensures Below(p, MarkEdge(s, b, si), sol) && MarkEdge(s, b, si).exec == s.exec
  { }

  lemma MarkBlockBelow<D>(p: Problem<D>, s: State<D>, sol: State<D>, b: nat)
    requires Below(p, s, sol) && b < |sol.exec| && sol.exec[b]
    ensures Below(p, MarkBlock(s, b), sol)
    ensures |s.exec| == |MarkBlock(s, b).exec| && forall b': nat :: b' < |s.exec| && s.exec[b'] ==> MarkBlock(s, b).exec[b']
  { }

  lemma {:induction false} TakeEdgesBelow<D(!new)>(p: Problem<D>, s: State<D>, sol: State<D>, b: nat, t: Inst,
                                                   sis: seq<nat>, n: nat)
    requires Laws(p.dom) && ProblemOk(p) && Below(p, s, sol) && OperandsFit(t) && b < |p.f.blocks|
    requires n <= |sis| && forall k :: 0 <= k < |sis| ==> sis[k] < EdgeCount(t.kind) && EdgeOk(p, sol, b, t, sis[k])
    requires forall v :: v in t.operands ==> v < |p.f.values|
    ensures Below(p, TakeEdges(p, s, b, t, sis, n), sol)
    ensures forall b': nat :: b' < |s.exec| && s.exec[b'] ==> TakeEdges(p, s, b, t, sis, n).exec[b']
  {
    hide Laws, ProblemOk, EdgeOk, TakeEdge;
    if n > 0 {
      TakeEdgesBelow(p, s, sol, b, t, sis, n - 1);
      TakeEdgeBelow(p, TakeEdges(p, s, b, t, sis, n - 1), sol, b, t, sis[n - 1]);
    }
  }

  lemma VisitTerminatorBelow<D(!new)>(p: Problem<D>, s: State<D>, sol: State<D>, b: nat)
    requires Laws(p.dom) && IsSolution(p, sol) && Below(p, s, sol) && b < |p.f.blocks| && s.exec[b]
    ensures Below(p, VisitTerminator(p, s, b), sol)
    ensures forall b': nat :: b' < |s.exec| && s.exec[b'] ==> VisitTerminator(p, s, b).exec[b']
  {
    if p.f.blocks[b].term.Some? {
      assert WellFormedBlock(p.f, b);
      var i := p.f.blocks[b].term.value;
      var t := p.f.insts[i];
      assert WellFormedInst(p.f, i) && Placed(p.f, i, b);
      assert Absorbed(p, sol, i, b);
      var sis := FeasibleEdges(p, s, t, EdgeCount(t.kind));
      forall k | 0 <= k < |sis| ensures EdgeOk(p, sol, b, t, sis[k]) {
        assert sis[k] in sis && Feasible(p, s, t, sis[k]);
        FeasibleBelow(p, s, sol, i, sis[k]);
      }
      TakeEdgesBelow(p, s, sol, b, t, sis, |sis|);
    }
  }

  lemma FeasibleBelow<D(!new)>(p: Problem<D>, s: State<D>, sol: State<D>, i: nat, si: nat)
    requires Laws(p.dom) && ProblemOk(p) && Below(p, s, sol) && i < |p.f.insts| && si < EdgeCount(p.f.insts[i].kind)
    requires Feasible(p, s, p.f.insts[i], si)
    ensures Feasible(p, sol, p.f.insts[i], si)
  {
    assert WellFormedInst(p.f, i);
    var t := p.f.insts[i];
    if EdgeGuard(t.kind, si).Some? {
      assert p.dom.le(Val(p, s, t.operands[0]), Val(p, sol, t.operands[0]));
    }
  }

  lemma {:induction false} ProcessUsesBelow<D(!new)>(p: Problem<D>, s: State<D>, sol: State<D>, us: seq<nat>, n: nat)
    requires Laws(p.dom) && IsSolution(p, sol) && Below(p, s, sol)
    requires n <= |us| && forall i :: i in us ==> i < |p.f.insts|
    ensures Below(p, ProcessUses(p, s, us, n), sol)
  {
    hide Laws, VisitTerminator, VisitInst, WellFormedFunction, SeedsBelow, Absorbed;
    if n > 0 {
      var i := us[n - 1];
      assert i in us;
      ProcessUsesBelow(p, s, sol, us, n - 1);
      var s1 := ProcessUses(p, s, us, n - 1);
      if p.instBlock[i].Some? && p.instBlock[i].value < |s1.exec| && s1.exec[p.instBlock[i].value] {
        var b := p.instBlock[i].value;
        assert Placed(p.f, i, b);
        if p.f.insts[i].kind.IsTerminator() {
          VisitTerminatorBelow(p, s1, sol, b);
        } else {
          VisitInstBelow(p, s1, sol, i, b);
        }
      }
    }
  }

  /** No iteration, whatever entry it takes, rises above any solution. */
  lemma StepBelow<D(!new)>(p: Problem<D>, s: State<D>, sol: State<D>, c: Choice)
    requires Laws(p.dom) && IsSolution(p, sol) && Below(p, s, sol) && Enabled(s, c)
    ensures Below(p, StepAt(p, s, c), sol)
  {
    match c
    case TakeBlock(k) =>
      var b := s.blockWl[k];
      assert b in s.blockWl;
      var s0 := s.(blockWl := Without(s.blockWl, k));
      assert Below(p, s0, sol);
      assert WellFormedBlock(p.f, b);
      var list := p.f.blocks[b].insts;
      VisitInstsBelow(p, s0, sol, b, |list|);
      VisitTerminatorBelow(p, VisitInsts(p, s0, list, |list|), sol, b);
    case TakeValue(k) =>
      var v := s.ssaWl[k];
      assert v in s.ssaWl;
      var s0 := s.(ssaWl := Without(s.ssaWl, k));
      assert Below(p, s0, sol);
      ProcessUsesBelow(p, s0, sol, Users(p.f.uses[v]), |p.f.uses[v]|);
  }

  lemma StartBelow<D(!new)>(p: Problem<D>, sol: State<D>)
    requires UpperBounds(p.dom) && IsSolution(p, sol)
    ensures Below(p, Start(p), sol)
  { }

  // ------------------------------------------------------------ any-order runs

  /** The state after serving the worklists in the given order. */
  ghost function RunChoices<D>(p: Problem<D>, choices: seq<Choice>): Option<State<D>>
    requires ProblemOk(p)
  {
    if choices == [] then Some(Start(p))
    else
      match RunChoices(p, choices[..|choices| - 1])
      case None => None
      case Some(s) =>
        var c := choices[|choices| - 1];
        if Sized(p, s) && Enabled(s, c) then Some(StepAt(p, s, c)) else None
  }

  lemma {:induction false} RunKeepsInv<D(!new)>(p: Problem<D>, choices: seq<Choice>)
    requires UpperBounds(p.dom) && ProblemOk(p)
    ensures RunChoices(p, choices).Some? ==> Inv(p, RunChoices(p, choices).value, {})
  {
    if choices == [] {
      StartInv(p);
    } else if RunChoices(p, choices).Some? {
      RunKeepsInv(p, choices[..|choices| - 1]);
      StepKeepsInv(p, RunChoices(p, choices[..|choices| - 1]).value, choices[|choices| - 1]);
    }
  }

  // ------------------------------------------------------------- runs without an end

  /** Some run serves `n` entries. */
  ghost predicate RunsFor<D>(p: Problem<D>, n: nat)
    requires ProblemOk(p)
  {
    exists choices: seq<Choice> :: |choices| == n && RunChoices(p, choices).Some?
  }

  ghost predicate RunBounded<D>(p: Problem<D>, bound: nat)
    requires ProblemOk(p)
  {
    forall choices: seq<Choice> :: RunChoices(p, choices).Some? ==> |choices| <= bound
  }

  ghost predicate CanStop<D>(p: Problem<D>)
    requires ProblemOk(p)
  {
    exists choices: seq<Choice> :: RunChoices(p, choices).Some? && Stopped(RunChoices(p, choices).value)
  }

  /** A run that has not stopped goes on. */
  lemma GoesOn<D(!new)>(p: Problem<D>, choices: seq<Choice>)
    requires UpperBounds(p.dom) && ProblemOk(p) && RunChoices(p, choices).Some? && !Stopped(RunChoices(p, choices).value)
    ensures RunsFor(p, |choices| + 1)
  {
    hide UpperBounds, ProblemOk, StepAt;
    var s := RunChoices(p, choices).value;
    RunKeepsInv(p, choices);
    var more := choices + [Latest(s)];
    assert more[..|choices|] == choices;
    assert RunChoices(p, more).Some?;
  }

  lemma {:induction false} RunsForEver<D(!new)>(p: Problem<D>, n: nat)
    requires UpperBounds(p.dom) && ProblemOk(p) && !CanStop(p)
    ensures RunsFor(p, n)
  {
    hide UpperBounds, ProblemOk;
    if n == 0 {
      assert RunChoices(p, []).Some?;
    } else {
      RunsForEver(p, n - 1);
      var choices: seq<Choice> :| |choices| == n - 1 && RunChoices(p, choices).Some?;
      GoesOn(p, choices);
    }
  }

  lemma LongRun<D(!new)>(p: Problem<D>, bound: nat)
    requires ProblemOk(p) && forall n: nat :: RunsFor(p, n)
    ensures !RunBounded(p, bound)
  {
    hide ProblemOk;
    assert RunsFor(p, bound + 1);
  }

  /** Runs of bounded length: one of them stops. */
  lemma BoundedStops<D(!new)>(p: Problem<D>)
    requires UpperBounds(p.dom) && ProblemOk(p) && exists bound: nat :: RunBounded(p, bound)
    ensures CanStop(p)
  {
    hide UpperBounds, ProblemOk, CanStop, RunsFor;
    if !CanStop(p) {
      var bound: nat :| RunBounded(p, bound);
      forall n: nat ensures RunsFor(p, n) { RunsForEver(p, n); }
      LongRun(p, bound);
    }
  }

  // ------------------------------------------------------- where every order ends

  lemma {:induction false} RunBelow<D(!new)>(p: Problem<D>, choices: seq<Choice>, sol: State<D>)
    requires Laws(p.dom) && IsSolution(p, sol)
    ensures RunChoices(p, choices).Some? ==> Below(p, RunChoices(p, choices).value, sol)
  {
    if choices == [] {
      StartBelow(p, sol);
    } else if RunChoices(p, choices).Some? {
      RunBelow(p, choices[..|choices| - 1], sol);
      StepBelow(p, RunChoices(p, choices[..|choices| - 1]).value, sol, choices[|choices| - 1]);
    }
  }

  /** Two states below each other hold the same facts. */
  lemma BelowAntisymmetric<D(!new)>(p: Problem<D>, s: State<D>, s': State<D>)
    requires LeastJoins(p.dom) && Below(p, s, s') && Below(p, s', s)
    ensures s.vals == s'.vals && s.exec == s'.exec && s.edges == s'.edges
  {
    forall b: nat | b < |s.edges| ensures s.edges[b] == s'.edges[b] {
      assert forall si: nat :: si < |s.edges[b]| ==> s.edges[b][si] == s'.edges[b][si];
    }
  }

  /** However the worklists are served, a run that stops has computed the least
      solution; so any two such runs agree on values, blocks and edges. */
  lemma AnyOrderIsLeast<D(!new)>(p: Problem<D>, order1: seq<Choice>, order2: seq<Choice>)
    requires Laws(p.dom) && ProblemOk(p)
    requires RunChoices(p, order1).Some? && Stopped(RunChoices(p, order1).value)
    requires RunChoices(p, order2).Some? && Stopped(RunChoices(p, order2).value)
    ensures var s1, s2 := RunChoices(p, order1).value, RunChoices(p, order2).value;
            && IsSolution(p, s1) && (forall sol: State<D> :: IsSolution(p, sol) ==> Below(p, s1, sol))
            && s1.vals == s2.vals && s1.exec == s2.exec && s1.edges == s2.edges
  {
    var s1, s2 := RunChoices(p, order1).value, RunChoices(p, order2).value;
    RunKeepsInv(p, order1);
    RunKeepsInv(p, order2);
    StoppedIsSolution(p, s1);
    StoppedIsSolution(p, s2);
    forall sol: State<D> | IsSolution(p, sol) ensures Below(p, s1, sol) { RunBelow(p, order1, sol); }
    RunBelow(p, order1, s2);
    RunBelow(p, order2, s1);
    BelowAntisymmetric(p, s1, s2);
  }

  /** No order can be served for ever: a bound on the length of every run. */
  lemma {:induction false} AnyOrderIsBounded<D(!new)>(p: Problem<D>, choices: seq<Choice>, height: D -> nat)
    requires Laws(p.dom) && ProblemOk(p) && FiniteHeight(p.dom, height)
    requires RunChoices(p, choices).Some?
    ensures Rising(p, RunChoices(p, choices).value)
    ensures |choices| + Weight(RunChoices(p, choices).value, height) <= Weight(Start(p), height)
  {
    if choices == [] {
      StartRising(p);
    } else {
      var before := RunChoices(p, choices[..|choices| - 1]).value;
      AnyOrderIsBounded(p, choices[..|choices| - 1], height);
      StepDescends(p, before, choices[|choices| - 1], height);
    }
  }
}
