/** Where widening at loop headers is not enough: a function with a cycle that has two
    ways in, so no header, on which the solver never stops in whatever order it is
    served. */
module NeverStops {
  import opened Wrappers
  import opened Paths
  import opened Ir
  import opened AbstractDomain
  import opened SolverSteps
  import opened SolverSound
  import opened SolverLeast
  import opened SolverWidens
  import opened WidenOrder
  import opened Solver
  import opened Dominators

  // ------------------------------------------------------------------ a tall lattice

  /** Nothing yet, the numbers up to `n`, or any number. */
  datatype Count = Nothing | UpTo(n: nat) | Anything
  {
    predicate Within(c: Count) {
      Nothing? || c.Anything? || (UpTo? && c.UpTo? && n <= c.n)
    }
  }

  function Join(a: Count, b: Count): Count {
    if a.Within(b) then b else a
  }

  /** What grows once may be anything. */
  function Widen(a: Count, b: Count): Count {
    if b.Within(a) then a else if a.Nothing? then b else Anything
  }

  /** One more than the first operand. */
  function More(ds: seq<Count>): Count {
    if ds == [] then UpTo(0) else if ds[0].UpTo? then UpTo(ds[0].n + 1) else ds[0]
  }

  function Counting(): Domain<Count> {
    Domain(Nothing, Anything, Join, Widen, (a: Count, b: Count) => a.Within(b), (c: int) => UpTo(0),
           (i: nat, ds: seq<Count>) => More(ds), (d: Count, g: Guard) => true, (v: nat) => None, (i: nat, ds: seq<Count>) => None)
  }

  function Rank(c: Count): nat {
    match c case Nothing => 2 case UpTo(_) => 1 case Anything => 0
  }

  /** Its widening stops after two changes. */
  lemma CountingStops()
    ensures WideningStops(Counting(), Rank) && UpperBounds(Counting())
  { }

  // ------------------------------------------------- without headers nothing is widened

  /** A function with no loop header, whose edges pass an argument per parameter. */
  ghost predicate Headless(p: Problem<Count>) {
    && ProblemOk(p) && p.dom == Counting()
    && (forall b: nat :: !IsHeader(p, b))
    && forall i: nat, si: nat :: i < |p.f.insts| && OperandsFit(p.f.insts[i]) && si < EdgeCount(p.f.insts[i].kind) ==>
         Full(p, p.f.insts[i], si)
  }

  ghost predicate Full(p: Problem<Count>, t: Inst, si: nat)
    requires OperandsFit(t) && si < EdgeCount(t.kind)
  {
    |EdgeArgs(t, si)| >= |ParamsOf(p, Target(t, si))|
  }

  ghost predicate Finite(p: Problem<Count>, s: State<Count>) {
    |s.vals| == |p.f.values| && forall v: nat :: v < |s.vals| ==> !s.vals[v].Anything?
  }

  lemma OperandIsFinite(p: Problem<Count>, s: State<Count>, i: nat, v: nat)
    requires ProblemOk(p) && Finite(p, s) && i < |p.f.insts| && v in p.f.insts[i].operands
    ensures v < |s.vals| && !Val(p, s, v).Anything?
  {
    assert WellFormedInst(p.f, i);
  }

  lemma VisitInstFinite(p: Problem<Count>, s: State<Count>, i: nat)
    requires Headless(p) && Finite(p, s) && i < |p.f.insts|
    ensures Finite(p, VisitInst(p, s, i))
  {
    hide ProblemOk;
    if p.f.insts[i].result.Some? {
      var ds := Operands(p, s, p.f.insts[i].operands);
      if ds != [] { OperandIsFinite(p, s, i, p.f.insts[i].operands[0]); }
    }
  }

  lemma {:induction false} VisitInstsFinite(p: Problem<Count>, s: State<Count>, list: seq<nat>, n: nat)
    requires Headless(p) && Finite(p, s) && n <= |list| && forall i :: i in list ==> i < |p.f.insts|
    ensures Finite(p, VisitInsts(p, s, list, n))
  {
    hide Headless, Finite, VisitInst;
    if n > 0 {
      VisitInstsFinite(p, s, list, n - 1);
      assert list[n - 1] in list;
      VisitInstFinite(p, VisitInsts(p, s, list, n - 1), list[n - 1]);
    }
  }

  lemma {:induction false} UpdateParamsFinite(p: Problem<Count>, s: State<Count>, i: nat, si: nat, n: nat)
    requires Headless(p) && Finite(p, s) && i < |p.f.insts| && OperandsFit(p.f.insts[i]) && si < EdgeCount(p.f.insts[i].kind)
    requires n <= |ParamsOf(p, Target(p.f.insts[i], si))|
    ensures Finite(p, UpdateParams(p, s, p.f.insts[i], si, n))
  {
    hide ProblemOk, OperandsFit, EdgeArgs;
    if n > 0 {
      UpdateParamsFinite(p, s, i, si, n - 1);
      var t, s1 := p.f.insts[i], UpdateParams(p, s, p.f.insts[i], si, n - 1);
      assert Full(p, t, si) && !IsHeader(p, Target(t, si));
      OperandIsFinite(p, s1, i, EdgeArgs(t, si)[n - 1]);
      ParamThere(p, Target(t, si), n - 1);
    }
  }

  lemma ParamThere(p: Problem<Count>, b: nat, k: nat)
    requires ProblemOk(p) && k < |ParamsOf(p, b)|
    ensures ParamsOf(p, b)[k] < |p.f.values|
  {
    assert WellFormedBlock(p.f, b);
  }

  lemma {:induction false} TakeEdgesFinite(p: Problem<Count>, s: State<Count>, b: nat, i: nat, sis: seq<nat>, n: nat)
    requires Headless(p) && Finite(p, s) && i < |p.f.insts| && OperandsFit(p.f.insts[i])
    requires n <= |sis| && forall k :: 0 <= k < |sis| ==> sis[k] < EdgeCount(p.f.insts[i].kind)
    ensures Finite(p, TakeEdges(p, s, b, p.f.insts[i], sis, n))
  {
    hide Headless, UpdateParams, OperandsFit;
    if n > 0 {
      TakeEdgesFinite(p, s, b, i, sis, n - 1);
      var t, si := p.f.insts[i], sis[n - 1];
      UpdateParamsFinite(p, MarkEdge(TakeEdges(p, s, b, t, sis, n - 1), b, si), i, si, |ParamsOf(p, Target(t, si))|);
    }
  }

  lemma VisitTerminatorFinite(p: Problem<Count>, s: State<Count>, b: nat)
    requires Headless(p) && Finite(p, s)
    ensures Finite(p, VisitTerminator(p, s, b))
  {
    hide Finite, TakeEdges, WellFormedFunction;
    if b < |p.f.blocks| && p.f.blocks[b].term.Some? {
      TermAt(p, b);
      var t := p.f.insts[p.f.blocks[b].term.value];
      var sis := FeasibleEdges(p, s, t, EdgeCount(t.kind));
      TakeEdgesFinite(p, s, b, p.f.blocks[b].term.value, sis, |sis|);
    }
  }

  lemma {:induction false} ProcessUsesFinite(p: Problem<Count>, s: State<Count>, us: seq<nat>, n: nat)
    requires Headless(p) && Finite(p, s) && n <= |us| && forall i :: i in us ==> i < |p.f.insts|
    ensures Finite(p, ProcessUses(p, s, us, n))
  {
    hide Finite, VisitInst, VisitTerminator;
    if n > 0 {
      ProcessUsesFinite(p, s, us, n - 1);
      assert us[n - 1] in us;
      var s1 := ProcessUses(p, s, us, n - 1);
      if p.instBlock[us[n - 1]].Some? { VisitTerminatorFinite(p, s1, p.instBlock[us[n - 1]].value); }
      VisitInstFinite(p, s1, us[n - 1]);
    }
  }

  lemma StepFinite(p: Problem<Count>, s: State<Count>, c: Choice)
    requires Headless(p) && Finite(p, s) && Sized(p, s) && Enabled(s, c)
    ensures Finite(p, StepAt(p, s, c))
  {
    hide VisitInsts, VisitTerminator, ProcessUses;
    match c
    case TakeBlock(k) =>
      var b := s.blockWl[k];
      assert b in s.blockWl && WellFormedBlock(p.f, b);
      var s0 := s.(blockWl := Without(s.blockWl, k));
      var list := p.f.blocks[b].insts;
      VisitInstsFinite(p, s0, list, |list|);
      VisitTerminatorFinite(p, VisitInsts(p, s0, list, |list|), b);
    case TakeValue(k) =>
      var v := s.ssaWl[k];
      assert v in s.ssaWl;
      UsersFit(p, v);
      ProcessUsesFinite(p, s.(ssaWl := Without(s.ssaWl, k)), Users(p.f.uses[v]), |p.f.uses[v]|);
  }

  /** The counts of a function without entry parameters stay finite. */
  ghost predicate StartsFinite(p: Problem<Count>)
    requires ProblemOk(p)
  {
    forall v: nat :: v < |p.f.values| ==> !Init(p, v).Anything?
  }

  lemma {:induction false} RunFinite(p: Problem<Count>, choices: seq<Choice>)
    requires ProblemOk(p) && Headless(p) && StartsFinite(p) && RunChoices(p, choices).Some?
    ensures Finite(p, RunChoices(p, choices).value)
  {
    hide StepAt, Sized, Headless, Finite, ProblemOk;
    if choices == [] {
      StartFinite(p);
    } else {
      RunFinite(p, choices[..|choices| - 1]);
      StepFinite(p, RunChoices(p, choices[..|choices| - 1]).value, choices[|choices| - 1]);
    }
  }

  lemma StartFinite(p: Problem<Count>)
    requires ProblemOk(p) && StartsFinite(p)
    ensures Finite(p, Start(p))
  { }

  // ------------------------------------------------------------- a cycle with two ways in

  /** The entry branches to either of two blocks, and each counts its parameter up and
      passes it to the other. */
  function TwoWaysIn(): Function {
    Function(
      Some(0),
      [Block([], [], Some(0)), Block([1], [1], Some(2)), Block([3], [3], Some(4))],
      [Inst(CondBr(1, 2, 1, 1), [0, 0, 0], None), Inst(Pure(0), [1], Some(2)), Inst(Br(2), [2], None),
       Inst(Pure(0), [3], Some(4)), Inst(Br(1), [4], None)],
      [Const(0), Param(1, 0), FromInst(1), Param(2, 0), FromInst(3)],
      [[Use(0, 0), Use(0, 1), Use(0, 2)], [Use(1, 0)], [Use(2, 0)], [Use(3, 0)], [Use(4, 0)]])
  }

  lemma TwoWaysOk()
    ensures WellFormedFunction(TwoWaysIn())
  {
    var f := TwoWaysIn();
    forall i: nat | i < |f.insts| ensures WellFormedInst(f, i) { TwoWaysInst(i); }
    forall b: nat | b < |f.blocks| ensures WellFormedBlock(f, b) { TwoWaysBlock(b); }
    forall i: nat, b: nat, b': nat | Placed(f, i, b) && Placed(f, i, b') ensures b == b' { }
  }

  lemma TwoWaysInst(i: nat)
    requires i < 5
    ensures |TwoWaysIn().insts| == |TwoWaysIn().values| == |TwoWaysIn().uses| == 5 && WellFormedInst(TwoWaysIn(), i)
  { }

  lemma TwoWaysBlock(b: nat)
    requires b < 3
    ensures |TwoWaysIn().blocks| == 3 && WellFormedBlock(TwoWaysIn(), b)
  { }

  lemma TwoWaysGraph()
    ensures GraphOf(TwoWaysIn()) == [[1, 2], [2], [1]]
  {
    var f := TwoWaysIn();
    assert SuccessorsOf(f, 0) == [1, 2] && SuccessorsOf(f, 1) == [2] && SuccessorsOf(f, 2) == [1];
    assert GraphOf(f) == [SuccessorsOf(f, 0), SuccessorsOf(f, 1), SuccessorsOf(f, 2)];
  }

  /** Neither block of the cycle dominates the other. */
  lemma NoLoopHeader(g: Graph, h: nat)
    requires g == [[1, 2], [2], [1]]
    ensures !IsLoopHeader(g, 0, h)
  {
    assert PathFromTo(g, [0], 0, 0) && PathFromTo(g, [0, 1], 0, 1) && PathFromTo(g, [0, 2], 0, 2);
    forall p: nat ensures !IsBackEdge(g, 0, p, h) {
      if p < 3 && h in g[p] {
        var q := if p == 0 then [0] else [0, p];
        assert PathFromTo(g, q, 0, p) && h !in q;
      }
    }
  }

  /** The problem the engine sets up for that function. */
  ghost predicate SetUp(p: Problem<Count>) {
    && p.f == TwoWaysIn() && p.dom == Counting() && ProblemOk(p)
    && forall h: nat :: h < |p.f.blocks| ==> (p.header[h] <==> IsLoopHeader(GraphOf(p.f), 0, h))
  }

  lemma SetUpHeadless(p: Problem<Count>)
    requires SetUp(p)
    ensures Headless(p) && StartsFinite(p)
  {
    hide IsLoopHeader, WellFormedFunction, Counting, Full, OperandsFit, EdgeCount;
    TwoWaysGraph();
    forall b: nat ensures !IsHeader(p, b) { NoLoopHeader(GraphOf(p.f), b); }
    var f := p.f;
    forall i: nat, si: nat | i < |f.insts| && OperandsFit(f.insts[i]) && si < EdgeCount(f.insts[i].kind) ensures Full(p, f.insts[i], si) {
      TwoWaysFull(p, i, si);
    }
    assert StartsFinite(p) by { TwoWaysStarts(p); }
  }

  lemma TwoWaysFull(p: Problem<Count>, i: nat, si: nat)
    requires p.f == TwoWaysIn() && i < |p.f.insts| && OperandsFit(p.f.insts[i]) && si < EdgeCount(p.f.insts[i].kind)
    ensures Full(p, p.f.insts[i], si)
  {
    assert EdgeArgs(p.f.insts[0], 0) == [0] && EdgeArgs(p.f.insts[0], 1) == [0];
  }

  lemma TwoWaysStarts(p: Problem<Count>)
    requires SetUp(p)
    ensures StartsFinite(p)
  {
    hide WellFormedFunction, IsLoopHeader;
  }

  /** What a solution says round the cycle. */
  lemma RoundTheCycle(p: Problem<Count>, s: State<Count>)
    requires SetUp(p) && IsSolution(p, s)
    ensures |s.vals| == 5 && UpTo(0).Within(s.vals[0]) && s.vals[0].Within(s.vals[1])
    ensures More([s.vals[1]]).Within(s.vals[2]) && s.vals[2].Within(s.vals[3])
    ensures More([s.vals[3]]).Within(s.vals[4]) && s.vals[4].Within(s.vals[1])
  {
    hide WellFormedFunction, IsLoopHeader;
    var f := p.f;
    assert Placed(f, 0, 0) && Placed(f, 1, 1) && Placed(f, 2, 1) && Placed(f, 3, 2) && Placed(f, 4, 2);
    assert Init(p, 0).Within(s.vals[0]);
    Branches(p, s);
    Counts(p, s, 1, 1, 1, 2);
    Counts(p, s, 3, 2, 3, 4);
    Passes(p, s, 2, 1, 2, 3);
    Passes(p, s, 4, 2, 4, 1);
  }

  lemma Branches(p: Problem<Count>, s: State<Count>)
    requires SetUp(p) && IsSolution(p, s) && Placed(p.f, 0, 0)
    ensures |s.vals| == 5 && s.vals[0].Within(s.vals[1]) && |s.exec| == 3 && s.exec[1] && s.exec[2]
  {
    hide WellFormedFunction, IsLoopHeader;
    var t := p.f.insts[0];
    assert EdgeArgs(t, 0) == [0] && EdgeArgs(t, 1) == [0];
    assert Absorbed(p, s, 0, 0);
    assert EdgeOk(p, s, 0, t, 0) && EdgeOk(p, s, 0, t, 1);
    assert ArgVal(p, s, t, 0, 0).Within(s.vals[1]);
  }

  lemma Counts(p: Problem<Count>, s: State<Count>, i: nat, b: nat, v: nat, r: nat)
    requires SetUp(p) && IsSolution(p, s) && i < |p.f.insts| && p.f.insts[i] == Inst(Pure(0), [v], Some(r))
    requires Placed(p.f, i, b) && b < |s.exec| && s.exec[b] && v < |s.vals| && r < |s.vals|
    ensures More([s.vals[v]]).Within(s.vals[r])
  {
    hide WellFormedFunction, IsLoopHeader, ProblemOk;
    assert Absorbed(p, s, i, b);
    assert Operands(p, s, [v]) == [s.vals[v]];
  }

  lemma Passes(p: Problem<Count>, s: State<Count>, i: nat, b: nat, v: nat, r: nat)
    requires SetUp(p) && IsSolution(p, s) && i < |p.f.insts| && b < |p.f.blocks|
    requires p.f.insts[i].kind.Br? && p.f.insts[i].operands == [v] && ParamsOf(p, p.f.insts[i].kind.target) == [r]
    requires Placed(p.f, i, b) && b < |s.exec| && s.exec[b] && v < |s.vals| && r < |s.vals|
    ensures s.vals[v].Within(s.vals[r])
  {
    hide WellFormedFunction, IsLoopHeader, ProblemOk;
    var t := p.f.insts[i];
    assert Absorbed(p, s, i, b);
    assert Feasible(p, s, t, 0) && EdgeOk(p, s, b, t, 0);
    assert ArgVal(p, s, t, 0, 0).Within(s.vals[r]);
  }

  /** Counts that chase each other up are not finite. */
  lemma CycleHasNoTop(start: Count, a: Count, a1: Count, b: Count, b1: Count)
    requires UpTo(0).Within(start) && start.Within(a) && More([a]).Within(a1) && a1.Within(b) && More([b]).Within(b1) && b1.Within(a)
    ensures a.Anything?
  { }

  lemma NoFiniteSolution(p: Problem<Count>, s: State<Count>)
    requires SetUp(p) && IsSolution(p, s)
    ensures !Finite(p, s)
  {
    hide SetUp, IsSolution;
    RoundTheCycle(p, s);
    CycleHasNoTop(s.vals[0], s.vals[1], s.vals[2], s.vals[3], s.vals[4]);
  }

  /** So although the widening stops, in no order is there ever an end: each
      iteration, in any order, leaves more to do. */
  lemma NeverDone(p: Problem<Count>, choices: seq<Choice>)
    requires ProblemOk(p) && SetUp(p) && RunChoices(p, choices).Some?
    ensures WideningStops(p.dom, Rank) && UpperBounds(p.dom) && !Stopped(RunChoices(p, choices).value)
  {
    hide Headless, WideningStops, UpperBounds, Inv, IsSolution, Finite, SetUp;
    CountingStops();
    SetUpIs(p);
    SetUpHeadless(p);
    var s := RunChoices(p, choices).value;
    RunFinite(p, choices);
    RunKeepsInv(p, choices);
    if Stopped(s) {
      StoppedIsSolution(p, s);
      NoFiniteSolution(p, s);
    }
  }

  lemma SetUpIs(p: Problem<Count>)
    requires SetUp(p)
    ensures ProblemOk(p) && p.dom == Counting()
  { }

  /** So its runs are of every length, and its values have no order that goes forward:
      some of them feed themselves. */
  lemma RunsForGood(p: Problem<Count>, live: seq<bool>)
    requires ProblemOk(p) && SetUp(p) && LiveExact(p, live)
    ensures (forall n: nat :: RunsFor(p, n)) && !HasOrder(p, live) && !NoCycle(p, live)
  {
    hide ProblemOk, SetUp, LiveExact, HasOrder, NoCycle, UpperBounds, WideningStops, RunsFor;
    CountingStops();
    SetUpIs(p);
    assert !CanStop(p) by {
      forall choices: seq<Choice> | RunChoices(p, choices).Some? ensures !Stopped(RunChoices(p, choices).value) {
        NeverDone(p, choices);
      }
    }
    forall n: nat ensures RunsFor(p, n) { RunsForEver(p, n); }
    if HasOrder(p, live) {
      var bound := OrderIsEnough(p, live, Rank);
      LongRun(p, bound);
    }
    OrderIffNoCycle(p, live);
  }

  /** The engine does set up such a problem. */
  method MakeEngine() returns (e: Engine<Count>)
    ensures SetUp(e.p) && fresh(e)
  {
    hide WellFormedFunction, IsLoopHeader;
    TwoWaysOk();
    TwoWaysGraph();
    e := new Engine<Count>(TwoWaysIn(), Counting());
    assert e.succ == GraphOf(TwoWaysIn());
  }
}
