/** The mutable solver: the two-worklist engine, updating its tables in place,
    each method tied to the step function it performs. */
module Solver {
  import opened Wrappers
  import opened Paths
  import opened Ir
  import opened AbstractDomain
  import opened SolverSteps
  import opened SolverSound
  import opened SolverLeast
  import opened SolverWidens
  import opened Cfg
  import opened Dominators

  class Engine<!D(==, !new)> {
    const p: Problem<D>
    const succ: Graph
    var vals: seq<D>
    var blockExec: seq<bool>
    var edgeExec: seq<seq<bool>>
    var blockWl: seq<nat>
    var ssaWl: seq<nat>

    /** The tables as a state of the step functions. */
    ghost function St(): State<D>
      reads this
    {
      State(vals, blockExec, edgeExec, blockWl, ssaWl)
    }

    ghost predicate Ready() {
      && ProblemOk(p) && |succ| == |p.f.blocks|
      && forall b :: 0 <= b < |succ| ==> succ[b] == SuccessorsOf(p.f, b)
    }

    /** Build the graph and dominator tree, place every instruction, and seed
        every value. */
    constructor (f: Function, dom: Domain<D>)
      requires WellFormedFunction(f) && f.entry.Some?
      ensures Ready() && p.f == f && p.dom == dom
      ensures forall h: nat :: h < |succ| ==> (p.header[h] <==> IsLoopHeader(succ, f.entry.value, h))
      ensures |vals| == |f.values| && forall v :: 0 <= v < |vals| ==> vals[v] == Init(p, v)
      ensures blockExec == seq(|f.blocks|, _ => false)
      ensures edgeExec == seq(|f.blocks|, b requires 0 <= b < |f.blocks| => seq(|SuccessorsOf(f, b)|, _ => false))
      ensures blockWl == [] && ssaWl == []
    {
      forall b: nat | b < |f.blocks| && f.blocks[b].term.Some? ensures f.blocks[b].term.value < |f.insts| {
        assert WellFormedBlock(f, b);
      }
      var cfg := new ControlFlowGraph(TermLists(f));
      forall b: nat | b < |f.blocks| ensures cfg.succ[b] == SuccessorsOf(f, b) {
        forall s | s in SuccessorsOf(f, b) ensures s < |f.blocks| { SuccessorsInRange(f, b, s); }
        InRangeKeepsAll(SuccessorsOf(f, b), |f.blocks|);
      }
      var doms := new DominatorTree(cfg, f.entry);
      var places := PlaceInsts(f);
      var problem := Problem(f, dom, doms.loopHeader, places);
      p := problem;
      succ := cfg.succ;
      vals := seq(|f.values|, v requires 0 <= v < |f.values| => Init(problem, v));
      blockExec := seq(|f.blocks|, _ => false);
      edgeExec := seq(|f.blocks|, b requires 0 <= b < |f.blocks| => seq(|SuccessorsOf(f, b)|, _ => false));
      blockWl, ssaWl := [], [];
    }

    /** Drain the worklists, blocks first. For either reason to end it does, at a
        solution: the least, if the lattice has the laws for that. */
    method Run(ghost e: Ending<D>)
      requires Ready() && Ends(p, e)
      requires |vals| == |p.f.values| && forall v :: 0 <= v < |vals| ==> vals[v] == Init(p, v)
      requires blockExec == seq(|p.f.blocks|, _ => false) && blockWl == [] && ssaWl == []
      requires edgeExec == seq(|p.f.blocks|, b requires 0 <= b < |p.f.blocks| => seq(|SuccessorsOf(p.f, b)|, _ => false))
      modifies this
      ensures Inv(p, St(), {}) && Stopped(St()) && IsSolution(p, St())
      ensures Laws(p.dom) ==> forall sol: State<D> :: IsSolution(p, sol) ==> Below(p, St(), sol)
    {
      hide IsSolution, Below, Laws, Inv, Ends, Nears;
      EndsUpper(p, e);
      MarkBlockExec(p.f.entry.value);
      assert vals == seq(|p.f.values|, v requires 0 <= v < |p.f.values| => Init(p, v));
      assert St() == Start(p);
      StartInv(p);
      StartNears(p, e);
      if Laws(p.dom) { forall sol: State<D> | IsSolution(p, sol) ensures Below(p, St(), sol) { StartsBelow(p, sol); } }
      while true
        invariant Inv(p, St(), {}) && Sized(p, St()) && Nears(p, St(), e)
        invariant Laws(p.dom) ==> forall sol: State<D> :: IsSolution(p, sol) ==> Below(p, St(), sol)
        decreases Distance(p, St(), e)
      {
        if blockWl == [] && ssaWl == [] { break; }
        ghost var before := St();
        Iterate();
        StepKeepsInv(p, before, Latest(before));
        StepNears(p, before, Latest(before), e);
        if Laws(p.dom) {
          forall sol: State<D> | IsSolution(p, sol) ensures Below(p, St(), sol) { StepBelow(p, before, sol, Latest(before)); }
        }
      }
      StoppedIsSolution(p, St());
    }

    /** One trip round the main loop. */
    method Iterate()
      requires Ready() && Sized(p, St()) && !Stopped(St())
      modifies this
      ensures St() == StepAt(p, old(St()), Latest(old(St())))
    {
      if blockWl != [] {
        var b := blockWl[|blockWl| - 1];
        assert b in blockWl;
        assert Without(blockWl, |blockWl| - 1) == blockWl[..|blockWl| - 1];
        blockWl := blockWl[..|blockWl| - 1];
        VisitBlock(b);
      } else {
        var v := ssaWl[|ssaWl| - 1];
        assert v in ssaWl;
        assert Without(ssaWl, |ssaWl| - 1) == ssaWl[..|ssaWl| - 1];
        ssaWl := ssaWl[..|ssaWl| - 1];
        ProcessSsa(v);
      }
    }

    /** The first time `b` is reached it goes on the block worklist. */
    method MarkBlockExec(b: nat)
      modifies this`blockExec, this`blockWl
      ensures St() == MarkBlock(old(St()), b)
    {
      if b < |blockExec| && !blockExec[b] {
        blockExec := blockExec[b := true];
        blockWl := blockWl + [b];
      }
    }

    /** Visit every instruction of `b`, then its terminator. */
    method VisitBlock(b: nat)
      requires Ready() && b < |p.f.blocks|
      modifies this
      ensures St() == SolverSteps.VisitBlock(p, old(St()), b)
    {
      assert WellFormedBlock(p.f, b);
      var list := p.f.blocks[b].insts;
      for k := 0 to |list|
        invariant St() == VisitInsts(p, old(St()), list, k)
      {
        assert list[k] in list;
        VisitInst(list[k]);
      }
      VisitTerminator(b);
    }

    /** Recompute a value-producing instruction; a change is scheduled. */
    method VisitInst(i: nat)
      requires i < |p.f.insts|
      modifies this`vals, this`ssaWl
      ensures St() == SolverSteps.VisitInst(p, old(St()), i)
    {
      var inst := p.f.insts[i];
      match inst.result {
        case None =>
        case Some(r) =>
          var operands := ReadOperands(inst.operands);
          var new_ := p.dom.Apply(i, operands);
          if r < |vals| && new_ != vals[r] {
            vals := vals[r := new_];
            ssaWl := ssaWl + [r];
          }
      }
    }

    method ReadOperands(vs: seq<nat>) returns (r: seq<D>)
      ensures r == Operands(p, St(), vs)
    {
      r := [];
      for k := 0 to |vs|
        invariant |r| == k && forall j :: 0 <= j < k ==> r[j] == Val(p, St(), vs[j])
      {
        r := r + [if vs[k] < |vals| then vals[vs[k]] else p.dom.top];
      }
    }

    /** Re-evaluate `b`'s terminator: mark the feasible edges and push their
        arguments into the target parameters. */
    method VisitTerminator(b: nat)
      requires Ready() && b < |p.f.blocks|
      modifies this
      ensures St() == SolverSteps.VisitTerminator(p, old(St()), b)
    {
      hide WellFormedFunction, WellFormedInst, WellFormedBlock, TakeEdge, FeasibleEdges, ProblemOk;
      if p.f.blocks[b].term.None? { return; }
      TermFits(p, b);
      var t := p.f.insts[p.f.blocks[b].term.value];
      var sis := FeasibleEdgeList(t);
      for k := 0 to |sis|
        invariant St() == TakeEdges(p, old(St()), b, t, sis, k)
      {
        TakeFeasible(b, t, sis[k]);
      }
    }

    /** Mark edge `si` and its target executable, and pass its arguments. */
    method TakeFeasible(b: nat, t: Inst, si: nat)
      requires b < |succ| && succ[b] == Successors(t.kind) && OperandsFit(t) && si < EdgeCount(t.kind)
      modifies this
      ensures St() == TakeEdge(p, old(St()), b, t, si)
    {
      if b < |edgeExec| && si < |edgeExec[b]| {
        edgeExec := edgeExec[b := edgeExec[b][si := true]];
      }
      UpdateTargetParams(t, si);
      MarkBlockExec(succ[b][si]);
    }

    /** The feasible outgoing edges of `t`, in successor order. */
    method FeasibleEdgeList(t: Inst) returns (sis: seq<nat>)
      ensures sis == FeasibleEdges(p, St(), t, EdgeCount(t.kind))
    {
      sis := [];
      for si := 0 to EdgeCount(t.kind)
        invariant sis == FeasibleEdges(p, St(), t, si)
      {
        if Feasible(p, State(vals, blockExec, edgeExec, blockWl, ssaWl), t, si) { sis := sis + [si]; }
      }
    }

    /** Merge the arguments of edge `si` into the target's parameters. */
    method UpdateTargetParams(t: Inst, si: nat)
      requires OperandsFit(t) && si < EdgeCount(t.kind)
      modifies this`vals, this`ssaWl
      ensures St() == UpdateParams(p, old(St()), t, si, |ParamsOf(p, Target(t, si))|)
    {
      hide OperandsFit, EdgeArgs, EdgeCount, Target, ParamsOf;
      var target := Target(t, si);
      var widen := target < |p.header| && p.header[target];
      var args := EdgeArgs(t, si);
      var params := ParamsOf(p, target);
      for k := 0 to |params|
        invariant St() == UpdateParams(p, old(St()), t, si, k)
      {
        var param := params[k];
        var arg := if k >= |args| then p.dom.top else if args[k] < |vals| then vals[args[k]] else p.dom.top;
        if param < |vals| {
          var joined := p.dom.join(vals[param], arg);
          var new_ := if widen then p.dom.widen(vals[param], joined) else joined;
          if new_ != vals[param] {
            vals := vals[param := new_];
            ssaWl := ssaWl + [param];
          }
        }
      }
    }

    /** Propagate a changed value to its uses in executable blocks. */
    method ProcessSsa(v: nat)
      requires Ready() && v < |p.f.uses|
      modifies this
      ensures St() == ProcessUses(p, old(St()), Users(p.f.uses[v]), |p.f.uses[v]|)
    {
      hide WellFormedFunction, SolverSteps.ProcessUse;
      var us := Users(p.f.uses[v]);
      UsersInRange(p.f, v);
      for k := 0 to |us|
        invariant St() == ProcessUses(p, old(St()), us, k)
      {
        assert us[k] in us;
        ProcessUse(us[k]);
      }
    }

    /** Re-evaluate one use, if it sits in an executable block. */
    method ProcessUse(i: nat)
      requires Ready() && i < |p.f.insts|
      modifies this
      ensures St() == SolverSteps.ProcessUse(p, old(St()), i)
    {
      match p.instBlock[i] {
        case None =>
        case Some(b) =>
          assert Placed(p.f, i, b);
          if b < |blockExec| && blockExec[b] {
            if p.f.insts[i].kind.IsTerminator() { VisitTerminator(b); } else { VisitInst(i); }
          }
      }
    }
  }

  /** Why a run ends: the lattice is of finite height, or widening stops and every
      value's changes are paid for. */
  datatype Ending<!D> = ByHeight(height: D -> nat) | ByBudget(rank: D -> nat, plan: Plan)

  ghost predicate Ends<D(!new)>(p: Problem<D>, e: Ending<D>) {
    match e
    case ByHeight(height) => Laws(p.dom) && FiniteHeight(p.dom, height)
    case ByBudget(rank, plan) => UpperBounds(p.dom) && WideningStops(p.dom, rank) && LiveOk(p, plan) && Balanced(p, plan)
  }

  /** What each iteration keeps, and lowers. */
  ghost predicate Nears<D>(p: Problem<D>, s: State<D>, e: Ending<D>) {
    match e case ByHeight(_) => Rising(p, s) case ByBudget(_, plan) => Going(p, plan, s)
  }

  ghost function Distance<D>(p: Problem<D>, s: State<D>, e: Ending<D>): nat {
    match e case ByHeight(height) => Weight(s, height) case ByBudget(rank, plan) => Budget(p, plan, s, rank)
  }

  lemma EndsUpper<D(!new)>(p: Problem<D>, e: Ending<D>)
    requires Ends(p, e)
    ensures UpperBounds(p.dom)
  { }

  lemma StartNears<D(!new)>(p: Problem<D>, e: Ending<D>)
    requires ProblemOk(p) && Ends(p, e)
    ensures Nears(p, Start(p), e)
  {
    hide ProblemOk, Rising, Going, FiniteHeight, WideningStops, Balanced, LiveOk;
    match e
    case ByHeight(_) => StartRising(p);
    case ByBudget(_, plan) => StartGoes(p, plan);
  }

  lemma StepNears<D(!new)>(p: Problem<D>, s: State<D>, c: Choice, e: Ending<D>)
    requires Inv(p, s, {}) && Ends(p, e) && Nears(p, s, e) && Enabled(s, c)
    ensures ProblemOk(p) && Sized(p, s) && Nears(p, StepAt(p, s, c), e) && Distance(p, StepAt(p, s, c), e) < Distance(p, s, e)
  {
    hide Rising, Going, FiniteHeight, WideningStops, Balanced, LiveOk, Laws, StepAt, Weight, Budget;
    match e
    case ByHeight(height) => StepDescends(p, s, c, height);
    case ByBudget(rank, plan) => StepSpends(p, plan, s, c, rank);
  }

  lemma StartsBelow<D(!new)>(p: Problem<D>, sol: State<D>)
    requires Laws(p.dom) && IsSolution(p, sol)
    ensures ProblemOk(p) && Below(p, Start(p), sol)
  {
    StartBelow(p, sol);
  }

  lemma TermFits<D>(p: Problem<D>, b: nat)
    requires ProblemOk(p) && b < |p.f.blocks| && p.f.blocks[b].term.Some?
    ensures p.f.blocks[b].term.value < |p.f.insts| && OperandsFit(p.f.insts[p.f.blocks[b].term.value])
  {
    assert WellFormedBlock(p.f, b);
    assert WellFormedInst(p.f, p.f.blocks[b].term.value);
  }

  lemma InRangeKeepsAll(ss: seq<nat>, n: nat)
    requires forall s :: s in ss ==> s < n
    ensures InRange(ss, n) == ss
  {
    if ss != [] {
      assert ss[0] in ss;
      assert ss == [ss[0]] + ss[1..];
      assert forall s :: s in ss[1..] ==> s in ss;
      InRangeKeepsAll(ss[1..], n);
    }
  }

  /** Map every placed instruction to its block. */
  method PlaceInsts(f: Function) returns (places: seq<Option<nat>>)
    requires WellFormedFunction(f)
    ensures |places| == |f.insts|
    ensures forall i: nat, b: nat :: i < |f.insts| ==> (places[i] == Some(b) <==> Placed(f, i, b))
  {
    places := seq(|f.insts|, _ => None);
    for b := 0 to |f.blocks|
      invariant |places| == |f.insts|
      invariant forall i: nat, c: nat :: i < |f.insts| ==> (places[i] == Some(c) <==> c < b && Placed(f, i, c))
    {
      assert WellFormedBlock(f, b);
      var list := f.blocks[b].insts;
      for k := 0 to |list|
        invariant |places| == |f.insts|
        invariant forall i: nat, c: nat :: i < |f.insts| ==>
                    (places[i] == Some(c) <==> (c < b && Placed(f, i, c)) || (c == b && i in list[..k]))
      {
        var i := list[k];
        assert i in list && Placed(f, i, b);
        assert list[..k + 1] == list[..k] + [i];
        places := places[i := Some(b)];
      }
      assert list[..|list|] == list;
      if f.blocks[b].term.Some? {
        assert Placed(f, f.blocks[b].term.value, b);
        places := places[f.blocks[b].term.value := Some(b)];
      }
    }
  }
}
