/** The dataflow equations of a whole function, stated by the instructions' own cases;
    the solver's solutions are theirs. */
module Equations {
  import opened Wrappers
  import opened Ir
  import opened AbstractDomain
  import opened SolverSteps
  import opened SolverSound
  import opened SolverLeast

  ghost function ValueAt<D>(p: Problem<D>, s: State<D>, v: nat): D {
    if v < |s.vals| then s.vals[v] else p.dom.top
  }

  /** What a value begins as: a seed where one is given; otherwise a constant its
      abstraction, an address or a parameter of the entry anything. */
  ghost predicate BeginsAbove<D>(p: Problem<D>, s: State<D>, v: nat)
    requires v < |p.f.values| == |s.vals|
  {
    var seed := p.dom.seed(v);
    match p.f.values[v]
    case Const(c) => p.dom.le(if seed.Some? then seed.value else p.dom.abstractConst(c), s.vals[v])
    case GlobalRef(_) => p.dom.le(if seed.Some? then seed.value else p.dom.top, s.vals[v])
    case Param(b, _) => p.f.entry == Some(b) ==> p.dom.le(if seed.Some? then seed.value else p.dom.top, s.vals[v])
    case FromInst(_) => true
  }

  /** A result is above the hook's value for the operands, or without one the transfer's. */
  ghost predicate ResultAbove<D(!new)>(p: Problem<D>, s: State<D>, i: nat)
    requires i < |p.f.insts|
  {
    var t := p.f.insts[i];
    t.result.Some? ==>
      forall ds: seq<D> :: |ds| == |t.operands| && (forall k :: 0 <= k < |ds| ==> ds[k] == ValueAt(p, s, t.operands[k])) ==>
        var hooked := p.dom.hook(i, ds);
        p.dom.le(if hooked.Some? then hooked.value else p.dom.transfer(i, ds), ValueAt(p, s, t.result.value))
  }

  ghost function CaseValues(cases: seq<Case>): (vs: seq<int>)
    ensures |vs| == |cases| && forall i :: 0 <= i < |vs| ==> vs[i] == cases[i].value
  {
    seq(|cases|, i requires 0 <= i < |cases| => cases[i].value)
  }

  /** Whether the domain lets edge `si` be taken: the first edge of a conditional branch if
      the condition may be true, the second if it may be false; a case of a switch if the
      value may equal its constant, the default if it may equal none. */
  ghost predicate MayTake<D>(p: Problem<D>, s: State<D>, t: Inst, si: nat)
    requires HasEdge(t.kind, si)
  {
    match t.kind
    case Br(_) => true
    case CondBr(_, _, _, _) => t.operands != [] && p.dom.edgeFeasible(ValueAt(p, s, t.operands[0]), CondIs(si == 0))
    case Switch(_, _, cases) =>
      t.operands != [] &&
      p.dom.edgeFeasible(ValueAt(p, s, t.operands[0]),
                         if si == 0 then CondNotAnyOf(CaseValues(cases)) else CondEquals(cases[si - 1].value))
  }

  /** Edge `si` is marked, its target executable, and each parameter above the operand at
      its place in the edge's slice, or above everything where the slice is too short. */
  ghost predicate EdgeAbove<D>(p: Problem<D>, s: State<D>, b: nat, t: Inst, si: nat)
    requires HasEdge(t.kind, si)
  {
    var target := EdgeTo(t.kind, si);
    && b < |s.edges| && si < |s.edges[b]| && s.edges[b][si]
    && target < |s.exec| && s.exec[target] && target < |p.f.blocks|
    && forall k: nat :: k < |p.f.blocks[target].params| ==> ParamAbove(p, s, t, si, k, p.f.blocks[target].params[k])
  }

  ghost predicate ParamAbove<D>(p: Problem<D>, s: State<D>, t: Inst, si: nat, k: nat, param: nat)
    requires HasEdge(t.kind, si)
  {
    var at := ArgFrom(t, si) + k;
    p.dom.le(if k < ArgNum(t, si) && at < |t.operands| then ValueAt(p, s, t.operands[at]) else p.dom.top, ValueAt(p, s, param))
  }

  ghost predicate EdgesAbove<D>(p: Problem<D>, s: State<D>, b: nat, t: Inst) {
    forall si: nat :: HasEdge(t.kind, si) && MayTake(p, s, t, si) ==> EdgeAbove(p, s, b, t, si)
  }

  ghost predicate Solves<D(!new)>(p: Problem<D>, s: State<D>) {
    && ProblemOk(p) && Sized(p, s) && s.exec[p.f.entry.value]
    && (forall v: nat :: v < |p.f.values| ==> BeginsAbove(p, s, v))
    && forall i: nat, b: nat :: i < |p.f.insts| && Placed(p.f, i, b) && s.exec[b] ==> InstAbove(p, s, i, b)
  }

  ghost predicate InstAbove<D(!new)>(p: Problem<D>, s: State<D>, i: nat, b: nat)
    requires i < |p.f.insts|
  {
    if p.f.insts[i].kind.IsTerminator() then EdgesAbove(p, s, b, p.f.insts[i]) else ResultAbove(p, s, i)
  }

  lemma FeasibleMeans<D>(p: Problem<D>, s: State<D>, t: Inst, si: nat)
    requires OperandsFit(t) && si < EdgeCount(t.kind) && HasEdge(t.kind, si)
    ensures Feasible(p, s, t, si) <==> MayTake(p, s, t, si)
  {
    if t.kind.Switch? && si == 0 {
      assert CaseValues(t.kind.cases) == seq(|t.kind.cases|, i requires 0 <= i < |t.kind.cases| => t.kind.cases[i].value);
    }
  }

  lemma EdgeMeans<D>(p: Problem<D>, s: State<D>, b: nat, t: Inst, si: nat)
    requires Sized(p, s) && OperandsFit(t) && si < EdgeCount(t.kind) && HasEdge(t.kind, si)
    ensures EdgeOk(p, s, b, t, si) <==> EdgeAbove(p, s, b, t, si)
  {
    hide OperandsFit, EdgeArgs, EdgeCount, HasEdge, ArgFrom, ArgNum, EdgeTo, Successors;
    EdgesMean(t, si);
    var target := Target(t, si);
    forall k: nat | k < |ParamsOf(p, target)|
      ensures p.dom.le(ArgVal(p, s, t, si, k), Val(p, s, ParamsOf(p, target)[k])) <==> ParamAbove(p, s, t, si, k, ParamsOf(p, target)[k])
    { }
  }

  lemma TermMeans<D>(p: Problem<D>, s: State<D>, b: nat, t: Inst)
    requires Sized(p, s) && OperandsFit(t)
    ensures TermOk(p, s, b, t) <==> EdgesAbove(p, s, b, t)
  {
    hide OperandsFit, EdgeCount, HasEdge, EdgeOk, EdgeAbove, Feasible, MayTake, Sized;
    forall si: nat ensures si < EdgeCount(t.kind) <==> HasEdge(t.kind, si) { EdgesMean(t, si); }
    forall si: nat | HasEdge(t.kind, si)
      ensures (Feasible(p, s, t, si) <==> MayTake(p, s, t, si)) && (EdgeOk(p, s, b, t, si) <==> EdgeAbove(p, s, b, t, si))
    {
      FeasibleMeans(p, s, t, si);
      EdgeMeans(p, s, b, t, si);
    }
  }

  lemma ResultMeans<D(!new)>(p: Problem<D>, s: State<D>, i: nat)
    requires i < |p.f.insts| && p.f.insts[i].result.Some?
    ensures p.dom.le(Transferred(p, s, i), Val(p, s, p.f.insts[i].result.value)) <==> ResultAbove(p, s, i)
  {
    var ds := Operands(p, s, p.f.insts[i].operands);
    forall ds': seq<D> | |ds'| == |ds| && (forall k :: 0 <= k < |ds'| ==> ds'[k] == ValueAt(p, s, p.f.insts[i].operands[k]))
      ensures ds' == ds
    { }
    assert forall k :: 0 <= k < |ds| ==> ds[k] == ValueAt(p, s, p.f.insts[i].operands[k]);
  }

  lemma BeginsMean<D(!new)>(p: Problem<D>, s: State<D>, v: nat)
    requires UpperBounds(p.dom) && v < |p.f.values| == |s.vals| && !p.f.values[v].FromInst?
    ensures p.dom.le(Init(p, v), s.vals[v]) <==> BeginsAbove(p, s, v)
  { }

  /** The solutions that the solver's own steps aim at are those of the equations. */
  lemma SolutionMeans<D(!new)>(p: Problem<D>, s: State<D>)
    requires UpperBounds(p.dom)
    ensures IsSolution(p, s) <==> Solves(p, s)
  {
    hide UpperBounds, WellFormedFunction, TermOk, EdgesAbove, ResultAbove, BeginsAbove, Init, Transferred;
    if ProblemOk(p) && Sized(p, s) {
      forall v: nat | v < |p.f.values| && !p.f.values[v].FromInst?
        ensures p.dom.le(Init(p, v), s.vals[v]) <==> BeginsAbove(p, s, v)
      {
        BeginsMean(p, s, v);
      }
      forall v: nat | v < |p.f.values| && p.f.values[v].FromInst? ensures BeginsAbove(p, s, v) { ResultBegins(p, s, v); }
      forall i: nat, b: nat | i < |p.f.insts| && Placed(p.f, i, b) ensures Absorbed(p, s, i, b) <==> InstAbove(p, s, i, b) {
        InstMeans(p, s, i, b);
      }
    }
  }

  lemma ResultBegins<D>(p: Problem<D>, s: State<D>, v: nat)
    requires v < |p.f.values| == |s.vals| && p.f.values[v].FromInst?
    ensures BeginsAbove(p, s, v)
  { }

  lemma InstMeans<D(!new)>(p: Problem<D>, s: State<D>, i: nat, b: nat)
    requires ProblemOk(p) && Sized(p, s) && i < |p.f.insts|
    ensures Absorbed(p, s, i, b) <==> InstAbove(p, s, i, b)
  {
    hide TermOk, EdgesAbove, Transferred, Sized;
    assert WellFormedInst(p.f, i);
    if p.f.insts[i].kind.IsTerminator() {
      TermMeans(p, s, b, p.f.insts[i]);
    } else if p.f.insts[i].result.Some? {
      ResultMeans(p, s, i);
    }
  }
}
