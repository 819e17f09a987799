/** The worklist invariant and what it gives when the worklists are empty: a
    solution of the dataflow equations, sound for every concrete execution. */
module SolverSound {
  import opened Wrappers
  import opened Ir
  import opened AbstractDomain
  import opened SolverSteps

  // ------------------------------------------------------ per-instruction facts

  /** Some operand of `i` is still to be propagated. */
  ghost predicate Dirty<D>(p: Problem<D>, s: State<D>, i: nat)
    requires i < |p.f.insts|
  {
    exists v :: v in p.f.insts[i].operands && v in s.ssaWl
  }

  /** The result of `i` is the transfer of its operands. */
  ghost predicate InstOk<D>(p: Problem<D>, s: State<D>, i: nat)
    requires i < |p.f.insts|
  {
    p.f.insts[i].result.Some? ==> Val(p, s, p.f.insts[i].result.value) == Transferred(p, s, i)
  }

  /** Edge `si` of block `b` is marked, its target executable, and every
      target parameter above the argument it receives. */
  ghost predicate EdgeOk<D>(p: Problem<D>, s: State<D>, b: nat, t: Inst, si: nat)
    requires OperandsFit(t) && si < EdgeCount(t.kind)
  {
    && b < |s.edges| && si < |s.edges[b]| && s.edges[b][si]
    && Target(t, si) < |s.exec| && s.exec[Target(t, si)]
    && ParamsAbove(p, s, t, si, |ParamsOf(p, Target(t, si))|)
  }

  ghost predicate ParamsAbove<D>(p: Problem<D>, s: State<D>, t: Inst, si: nat, n: nat)
    requires OperandsFit(t) && si < EdgeCount(t.kind) && n <= |ParamsOf(p, Target(t, si))|
  {
    forall k: nat :: k < n ==> p.dom.le(ArgVal(p, s, t, si, k), Val(p, s, ParamsOf(p, Target(t, si))[k]))
  }

  ghost predicate TermOk<D>(p: Problem<D>, s: State<D>, b: nat, t: Inst)
    requires OperandsFit(t)
  {
    forall si: nat :: si < EdgeCount(t.kind) && Feasible(p, s, t, si) ==> EdgeOk(p, s, b, t, si)
  }

  /** Instruction `i` of block `b` agrees with the current values. */
  ghost predicate Done<D>(p: Problem<D>, s: State<D>, i: nat, b: nat)
    requires ProblemOk(p) && i < |p.f.insts|
  {
    assert WellFormedInst(p.f, i);
    if p.f.insts[i].kind.IsTerminator() then TermOk(p, s, b, p.f.insts[i]) else InstOk(p, s, i)
  }

  ghost predicate Covered<D>(p: Problem<D>, s: State<D>, i: nat, b: nat)
    requires ProblemOk(p) && i < |p.f.insts|
  {
    Dirty(p, s, i) || Done(p, s, i, b)
  }

  /** Instruction `i` sits in an executable block that needs no first visit. */
  ghost predicate Live<D>(p: Problem<D>, s: State<D>, i: nat, b: nat)
    requires ProblemOk(p)
  {
    i < |p.f.insts| && p.instBlock[i] == Some(b) && b < |s.exec| && s.exec[b] && b !in s.blockWl
  }

  /** Every live instruction outside `pending` agrees with the current values
      or has an operand on the SSA worklist. */
  ghost predicate Inv<D>(p: Problem<D>, s: State<D>, pending: set<nat>) {
    && ProblemOk(p) && Sized(p, s)
    && s.exec[p.f.entry.value]
    && (forall i: nat, b: nat :: Live(p, s, i, b) && i !in pending ==> Covered(p, s, i, b))
    && SeedsBelow(p, s)
  }

  ghost predicate SeedsBelow<D>(p: Problem<D>, s: State<D>)
    requires |s.vals| == |p.f.values|
  {
    forall v: nat :: v < |p.f.values| && !p.f.values[v].FromInst? ==> p.dom.le(Init(p, v), s.vals[v])
  }

  // ---------------------------------------------------------- how states evolve

  /** From `s` to `s'` everything only grows, except that the results of the
      instructions in `redone` may be overwritten; whatever changed is on the
      SSA worklist, whatever became executable on the block worklist. */
  ghost predicate Evolves<D>(p: Problem<D>, s: State<D>, s': State<D>, redone: set<nat>) {
    && Sized(p, s) && Sized(p, s')
    && (forall b: nat :: b < |s.exec| && s.exec[b] ==> s'.exec[b])
    && (forall b: nat :: b < |s.exec| && s'.exec[b] && !s.exec[b] ==> b in s'.blockWl)
    && (forall b :: b in s.blockWl ==> b in s'.blockWl)
    && (forall b: nat, si: nat :: b < |s.edges| && si < |s.edges[b]| && s.edges[b][si] ==> s'.edges[b][si])
    && (forall v :: v in s.ssaWl ==> v in s'.ssaWl)
    && (forall v: nat :: v < |s.vals| ==> ValEvolves(p, s, s', redone, v))
  }

  ghost predicate ValEvolves<D>(p: Problem<D>, s: State<D>, s': State<D>, redone: set<nat>, v: nat)
    requires |s.vals| == |s'.vals| == |p.f.values| && v < |s.vals|
  {
    || s'.vals[v] == s.vals[v]
    || (&& v in s'.ssaWl
        && match p.f.values[v]
           case Param(_, _) => p.dom.le(s.vals[v], s'.vals[v])
           case FromInst(i) => i in redone
           case _ => false)
  }

  lemma EvolvesTrans<D(!new)>(p: Problem<D>, s: State<D>, s': State<D>, s'': State<D>, redone: set<nat>)
    requires UpperBounds(p.dom) && Evolves(p, s, s', redone) && Evolves(p, s', s'', redone)
    ensures Evolves(p, s, s'', redone)
  {
    forall v: nat | v < |s.vals| ensures ValEvolves(p, s, s'', redone, v) {
      assert ValEvolves(p, s, s', redone, v) && ValEvolves(p, s', s'', redone, v);
    }
  }

  lemma EvolvesSelf<D(!new)>(p: Problem<D>, s: State<D>, redone: set<nat>)
    requires Sized(p, s)
    ensures Evolves(p, s, s, redone)
  { }

  /** What was covered stays covered. */
  lemma EvolvesKeepsCovered<D(!new)>(p: Problem<D>, s: State<D>, s': State<D>, redone: set<nat>, i: nat, b: nat)
    requires UpperBounds(p.dom) && ProblemOk(p) && Evolves(p, s, s', redone)
    requires i < |p.f.insts| && i !in redone && Covered(p, s, i, b)
    ensures Covered(p, s', i, b)
  {
    assert WellFormedInst(p.f, i);
    var inst := p.f.insts[i];
    if !Dirty(p, s', i) {
      forall v | v in inst.operands ensures v < |s.vals| && s'.vals[v] == s.vals[v] {
        assert ValEvolves(p, s, s', redone, v);
      }
      assert Operands(p, s, inst.operands) == Operands(p, s', inst.operands);
      if inst.kind.IsTerminator() {
        forall si: nat | si < EdgeCount(inst.kind) && Feasible(p, s', inst, si) ensures EdgeOk(p, s', b, inst, si) {
          assert Feasible(p, s, inst, si);
          KeepsEdgeOk(p, s, s', redone, i, b, si);
        }
      } else if inst.result.Some? {
        assert ValEvolves(p, s, s', redone, inst.result.value);
      }
    }
  }

  lemma KeepsEdgeOk<D(!new)>(p: Problem<D>, s: State<D>, s': State<D>, redone: set<nat>, i: nat, b: nat, si: nat)
    requires UpperBounds(p.dom) && ProblemOk(p) && Evolves(p, s, s', redone)
    requires i < |p.f.insts| && OperandsFit(p.f.insts[i]) && si < EdgeCount(p.f.insts[i].kind)
    requires EdgeOk(p, s, b, p.f.insts[i], si)
    requires forall v :: v in p.f.insts[i].operands ==> v < |s.vals| && s'.vals[v] == s.vals[v]
    ensures EdgeOk(p, s', b, p.f.insts[i], si)
  {
    hide UpperBounds, ProblemOk, OperandsFit, EdgeArgs, Target, EdgeCount, ParamsOf;
    var t := p.f.insts[i];
    var target := Target(t, si);
    forall k: nat | k < |ParamsOf(p, target)|
      ensures p.dom.le(ArgVal(p, s', t, si, k), Val(p, s', ParamsOf(p, target)[k]))
    {
      ParamAt(p, s, target, k);
      ParamAt(p, s', target, k);
      assert ArgVal(p, s', t, si, k) == ArgVal(p, s, t, si, k) by {
        if k < |EdgeArgs(t, si)| { assert EdgeArgs(t, si)[k] in t.operands; }
      }
      assert ValEvolves(p, s, s', redone, ParamsOf(p, target)[k]);
      LeTrans(p.dom, ArgVal(p, s, t, si, k), Val(p, s, ParamsOf(p, target)[k]), Val(p, s', ParamsOf(p, target)[k]));
    }
  }

  lemma EvolvesKeepsInv<D(!new)>(p: Problem<D>, s: State<D>, s': State<D>, redone: set<nat>, pending: set<nat>,
                                 settled: set<nat>)
    requires UpperBounds(p.dom) && Inv(p, s, pending) && Evolves(p, s, s', redone)
    requires forall i: nat, b: nat :: i in redone + settled && Live(p, s', i, b) ==> Covered(p, s', i, b)
    ensures Inv(p, s', pending - settled - redone)
  {
    forall i: nat, b: nat | Live(p, s', i, b) && i !in pending - settled - redone ensures Covered(p, s', i, b) {
      if i !in redone && i !in settled {
        assert Live(p, s, i, b);
        EvolvesKeepsCovered(p, s, s', redone, i, b);
      }
    }
    forall v: nat | v < |p.f.values| && !p.f.values[v].FromInst? ensures p.dom.le(Init(p, v), s'.vals[v]) {
      assert ValEvolves(p, s, s', redone, v);
    }
  }

  // --------------------------------------------------------------- single steps

  lemma SetParamEvolves<D(!new)>(p: Problem<D>, s: State<D>, v: nat, d: D)
    requires Sized(p, s) && v < |s.vals| && p.f.values[v].Param? && p.dom.le(s.vals[v], d)
    ensures Evolves(p, s, SetVal(s, v, d), {}) && Sized(p, SetVal(s, v, d)) && SetVal(s, v, d).edges == s.edges
  { }

  lemma MarkBlockEvolves<D(!new)>(p: Problem<D>, s: State<D>, b: nat)
    requires Sized(p, s) && b < |s.exec|
    ensures Evolves(p, s, MarkBlock(s, b), {}) && Sized(p, MarkBlock(s, b)) && MarkBlock(s, b).exec[b]
  { }

  lemma MarkEdgeEvolves<D(!new)>(p: Problem<D>, s: State<D>, b: nat, si: nat)
    requires Sized(p, s) && b < |s.edges| && si < |s.edges[b]|
    ensures Evolves(p, s, MarkEdge(s, b, si), {}) && Sized(p, MarkEdge(s, b, si)) && MarkEdge(s, b, si).edges[b][si]
  { }

  lemma MergedAbove<D(!new)>(p: Problem<D>, target: nat, old_: D, arg: D)
    requires UpperBounds(p.dom)
    ensures p.dom.le(old_, Merged(p, target, old_, arg)) && p.dom.le(arg, Merged(p, target, old_, arg))
  { }

  /** Merging an edge's arguments: each parameter ends above its argument
      unless the terminator has to be revisited anyway. */
  lemma {:induction false} UpdateParamsEvolves<D(!new)>(p: Problem<D>, s: State<D>, i: nat, si: nat, n: nat)
    requires UpperBounds(p.dom) && ProblemOk(p) && Sized(p, s) && i < |p.f.insts|
    requires OperandsFit(p.f.insts[i]) && si < EdgeCount(p.f.insts[i].kind)
    requires n <= |ParamsOf(p, Target(p.f.insts[i], si))|
    ensures Evolves(p, s, UpdateParams(p, s, p.f.insts[i], si, n), {})
    ensures Sized(p, UpdateParams(p, s, p.f.insts[i], si, n))
    ensures UpdateParams(p, s, p.f.insts[i], si, n).edges == s.edges
    ensures Dirty(p, UpdateParams(p, s, p.f.insts[i], si, n), i)
            || ParamsAbove(p, UpdateParams(p, s, p.f.insts[i], si, n), p.f.insts[i], si, n)
  {
    hide UpperBounds, Evolves, OperandsFit, Merged, ArgVal, Target, EdgeCount, ParamsOf, ParamsAbove, Dirty, ProblemOk, Sized, SetVal;
    var t := p.f.insts[i];
    var target := Target(t, si);
    if n == 0 {
      EvolvesSelf(p, s, {});
      NoneAbove(p, s, t, si);
    } else {
      UpdateParamsEvolves(p, s, i, si, n - 1);
      var s1 := UpdateParams(p, s, t, si, n - 1);
      var param := ParamsOf(p, target)[n - 1];
      var arg := ArgVal(p, s1, t, si, n - 1);
      var new_ := Merged(p, target, Val(p, s1, param), arg);
      MergedAbove(p, target, Val(p, s1, param), arg);
      ParamAt(p, s1, target, n - 1);
      SetParamEvolves(p, s1, param, new_);
      var s2 := SetVal(s1, param, new_);
      EvolvesTrans(p, s, s1, s2, {});
      if !Dirty(p, s2, i) {
        SetAbove(p, s1, s2, i, si, n, param);
      }
    }
  }

  lemma NoneAbove<D(!new)>(p: Problem<D>, s: State<D>, t: Inst, si: nat)
    requires OperandsFit(t) && si < EdgeCount(t.kind)
    ensures ParamsAbove(p, s, t, si, 0)
  { }

  lemma ParamAt<D(!new)>(p: Problem<D>, s: State<D>, b: nat, k: nat)
    requires ProblemOk(p) && Sized(p, s) && k < |ParamsOf(p, b)|
    ensures |s.vals| == |p.f.values| && ParamsOf(p, b)[k] < |s.vals| && p.f.values[ParamsOf(p, b)[k]].Param?
  {
    assert WellFormedBlock(p.f, b);
  }

  lemma SetAbove<D(!new)>(p: Problem<D>, s1: State<D>, s2: State<D>, i: nat, si: nat, n: nat, param: nat)
    requires UpperBounds(p.dom) && ProblemOk(p) && Sized(p, s1) && i < |p.f.insts|
    requires OperandsFit(p.f.insts[i]) && si < EdgeCount(p.f.insts[i].kind)
    requires 0 < n <= |ParamsOf(p, Target(p.f.insts[i], si))|
    requires param == ParamsOf(p, Target(p.f.insts[i], si))[n - 1] && param < |s1.vals|
    requires var t := p.f.insts[i];
             s2 == SetVal(s1, param, Merged(p, Target(t, si), Val(p, s1, param), ArgVal(p, s1, t, si, n - 1)))
    requires Dirty(p, s1, i) || ParamsAbove(p, s1, p.f.insts[i], si, n - 1)
    requires !Dirty(p, s2, i)
    ensures ParamsAbove(p, s2, p.f.insts[i], si, n)
  {
    hide UpperBounds, Dirty, OperandsFit, EdgeArgs, Merged, ArgVal, ProblemOk, Sized, Target, EdgeCount, ParamsOf;
    var t := p.f.insts[i];
    var target := Target(t, si);
    MergedAbove(p, target, Val(p, s1, param), ArgVal(p, s1, t, si, n - 1));
    SetKeepsArgs(p, s1, param, Merged(p, target, Val(p, s1, param), ArgVal(p, s1, t, si, n - 1)), i, si);
    forall k: nat | k < n ensures p.dom.le(ArgVal(p, s2, t, si, k), Val(p, s2, ParamsOf(p, target)[k])) {
      if k < n - 1 {
        LeTrans(p.dom, ArgVal(p, s1, t, si, k), Val(p, s1, ParamsOf(p, target)[k]), Val(p, s2, ParamsOf(p, target)[k]));
      }
    }
  }

  lemma LeTrans<D(!new)>(dom: Domain<D>, a: D, b: D, c: D)
    requires UpperBounds(dom) && dom.le(a, b) && (dom.le(b, c) || b == c)
    ensures dom.le(a, c)
  { }

  /** A store that leaves no operand to propagate has changed none. */
  lemma SetKeepsArgs<D(!new)>(p: Problem<D>, s: State<D>, v: nat, d: D, i: nat, si: nat)
    requires i < |p.f.insts| && OperandsFit(p.f.insts[i]) && si < EdgeCount(p.f.insts[i].kind)
    requires !Dirty(p, SetVal(s, v, d), i)
    ensures !Dirty(p, s, i)
    ensures forall k: nat :: ArgVal(p, SetVal(s, v, d), p.f.insts[i], si, k) == ArgVal(p, s, p.f.insts[i], si, k)
  {
    hide EdgeArgs, OperandsFit;
    var t, s' := p.f.insts[i], SetVal(s, v, d);
    assert !Dirty(p, s, i) by {
      if w :| w in t.operands && w in s.ssaWl { assert w in s'.ssaWl; }
    }
    forall w | w in t.operands ensures Val(p, s', w) == Val(p, s, w) {
      if w == v { assert s'.vals != s.vals ==> v in s'.ssaWl; }
    }
    forall k: nat ensures ArgVal(p, s', t, si, k) == ArgVal(p, s, t, si, k) {
      if k < |EdgeArgs(t, si)| { assert EdgeArgs(t, si)[k] in t.operands; }
    }
  }

  lemma TakeEdgeEvolves<D(!new)>(p: Problem<D>, s: State<D>, b: nat, i: nat, si: nat)
    requires UpperBounds(p.dom) && ProblemOk(p) && Sized(p, s)
    requires b < |p.f.blocks| && p.f.blocks[b].term == Some(i) && i < |p.f.insts|
    requires OperandsFit(p.f.insts[i]) && si < EdgeCount(p.f.insts[i].kind)
    ensures Evolves(p, s, TakeEdge(p, s, b, p.f.insts[i], si), {}) && Sized(p, TakeEdge(p, s, b, p.f.insts[i], si))
    ensures Dirty(p, TakeEdge(p, s, b, p.f.insts[i], si), i)
            || EdgeOk(p, TakeEdge(p, s, b, p.f.insts[i], si), b, p.f.insts[i], si)
  {
    hide Evolves, UpperBounds, ParamsAbove;
    var t := p.f.insts[i];
    var target := Target(t, si);
    assert WellFormedInst(p.f, i);
    assert target in Successors(t.kind);
    var s1 := MarkEdge(s, b, si);
    MarkEdgeEvolves(p, s, b, si);
    var n := |ParamsOf(p, target)|;
    UpdateParamsEvolves(p, s1, i, si, n);
    var s2 := UpdateParams(p, s1, t, si, n);
    MarkBlockEvolves(p, s2, target);
    var s3 := MarkBlock(s2, target);
    EvolvesTrans(p, s, s1, s2, {});
    EvolvesTrans(p, s, s2, s3, {});
    if ParamsAbove(p, s2, t, si, n) {
      SameValsParams(p, s2, s3, t, si, n);
    }
  }

  lemma SameValsParams<D(!new)>(p: Problem<D>, s: State<D>, s': State<D>, t: Inst, si: nat, n: nat)
    requires OperandsFit(t) && si < EdgeCount(t.kind) && n <= |ParamsOf(p, Target(t, si))|
    requires s'.vals == s.vals && ParamsAbove(p, s, t, si, n)
    ensures ParamsAbove(p, s', t, si, n)
  {
    assert forall k: nat :: ArgVal(p, s', t, si, k) == ArgVal(p, s, t, si, k);
  }

  lemma {:induction false} TakeEdgesEvolves<D(!new)>(p: Problem<D>, s: State<D>, b: nat, i: nat, sis: seq<nat>, n: nat)
    requires UpperBounds(p.dom) && ProblemOk(p) && Sized(p, s)
    requires b < |p.f.blocks| && p.f.blocks[b].term == Some(i) && i < |p.f.insts| && OperandsFit(p.f.insts[i])
    requires n <= |sis| && forall k :: 0 <= k < |sis| ==> sis[k] < EdgeCount(p.f.insts[i].kind)
    ensures Evolves(p, s, TakeEdges(p, s, b, p.f.insts[i], sis, n), {})
    ensures Sized(p, TakeEdges(p, s, b, p.f.insts[i], sis, n))
    ensures Dirty(p, TakeEdges(p, s, b, p.f.insts[i], sis, n), i)
            || forall k :: 0 <= k < n ==> EdgeOk(p, TakeEdges(p, s, b, p.f.insts[i], sis, n), b, p.f.insts[i], sis[k])
  {
    hide Evolves, UpperBounds, EdgeOk, ProblemOk, Sized, TakeEdge;
    var t := p.f.insts[i];
    if n == 0 {
      EvolvesSelf(p, s, {});
    } else {
      TakeEdgesEvolves(p, s, b, i, sis, n - 1);
      var s1 := TakeEdges(p, s, b, t, sis, n - 1);
      TakeEdgeEvolves(p, s1, b, i, sis[n - 1]);
      var s2 := TakeEdge(p, s1, b, t, sis[n - 1]);
      EvolvesTrans(p, s, s1, s2, {});
      if !Dirty(p, s2, i) {
        CleanBefore(p, s1, s2, i);
        forall k | 0 <= k < n - 1 ensures EdgeOk(p, s2, b, t, sis[k]) {
          KeepsEdgeOk(p, s1, s2, {}, i, b, sis[k]);
        }
      }
    }
  }

  /** If no operand is on the worklist afterwards, none was before, and none
      has changed. */
  lemma CleanBefore<D(!new)>(p: Problem<D>, s: State<D>, s': State<D>, i: nat)
    requires ProblemOk(p) && Evolves(p, s, s', {}) && i < |p.f.insts| && !Dirty(p, s', i)
    ensures !Dirty(p, s, i)
    ensures forall v :: v in p.f.insts[i].operands ==> v < |s.vals| && s'.vals[v] == s.vals[v]
  {
    assert WellFormedInst(p.f, i);
    forall v | v in p.f.insts[i].operands ensures v < |s.vals| && s'.vals[v] == s.vals[v] {
      assert ValEvolves(p, s, s', {}, v);
    }
  }

  lemma TermAt<D(!new)>(p: Problem<D>, b: nat)
    requires ProblemOk(p) && b < |p.f.blocks| && p.f.blocks[b].term.Some?
    ensures var i := p.f.blocks[b].term.value;
            && i < |p.f.insts| && OperandsFit(p.f.insts[i]) && p.f.insts[i].kind.IsTerminator()
            && forall b': nat :: Placed(p.f, i, b') ==> b' == b
  {
    var i := p.f.blocks[b].term.value;
    assert WellFormedBlock(p.f, b) && WellFormedInst(p.f, i) && Placed(p.f, i, b);
  }

  lemma VisitTerminatorCovers<D(!new)>(p: Problem<D>, s: State<D>, b: nat, pending: set<nat>)
    requires UpperBounds(p.dom) && Inv(p, s, pending) && b < |p.f.blocks|
    ensures Inv(p, VisitTerminator(p, s, b),
                if p.f.blocks[b].term.Some? then pending - {p.f.blocks[b].term.value} else pending)
    ensures Evolves(p, s, VisitTerminator(p, s, b), {})
  {
    hide Evolves, UpperBounds, EdgeOk, WellFormedFunction, TakeEdges;
    if p.f.blocks[b].term.Some? {
      TermAt(p, b);
      var i := p.f.blocks[b].term.value;
      var t := p.f.insts[i];
      var sis := FeasibleEdges(p, s, t, EdgeCount(t.kind));
      TakeEdgesEvolves(p, s, b, i, sis, |sis|);
      var s' := TakeEdges(p, s, b, t, sis, |sis|);
      if !Dirty(p, s', i) {
        CleanBefore(p, s, s', i);
        forall si: nat | si < EdgeCount(t.kind) && Feasible(p, s', t, si) ensures EdgeOk(p, s', b, t, si) {
          assert Feasible(p, s, t, si) && si in sis;
        }
      }
      forall b': nat | Live(p, s', i, b') ensures Covered(p, s', i, b') {
        assert Placed(p.f, i, b) && Placed(p.f, i, b');
      }
      EvolvesKeepsInv(p, s, s', {}, pending, {i});
    } else {
      EvolvesSelf(p, s, {});
    }
  }

  lemma VisitInstCovers<D(!new)>(p: Problem<D>, s: State<D>, i: nat, pending: set<nat>)
    requires UpperBounds(p.dom) && Inv(p, s, pending) && i < |p.f.insts| && !p.f.insts[i].kind.IsTerminator()
    ensures Inv(p, VisitInst(p, s, i), pending - {i})
  {
    assert WellFormedInst(p.f, i);
    var inst := p.f.insts[i];
    var s' := VisitInst(p, s, i);
    if inst.result.Some? {
      assert Evolves(p, s, s', {i}) by {
        forall v: nat | v < |s.vals| ensures ValEvolves(p, s, s', {i}, v) { }
      }
      assert Covered(p, s', i, 0) by {
        if !Dirty(p, s', i) {
          assert forall v :: v in inst.operands ==> Val(p, s', v) == Val(p, s, v);
          assert Operands(p, s, inst.operands) == Operands(p, s', inst.operands);
        }
      }
      EvolvesKeepsInv(p, s, s', {i}, pending, {});
    } else {
      EvolvesSelf(p, s, {});
      EvolvesKeepsInv(p, s, s, {}, pending, {i});
    }
  }

  ghost function Elems(list: seq<nat>): set<nat> {
    set i | i in list
  }

  lemma {:induction false} VisitInstsCover<D(!new)>(p: Problem<D>, s: State<D>, list: seq<nat>, n: nat, pending: set<nat>)
    requires UpperBounds(p.dom) && ProblemOk(p) && Inv(p, s, pending)
    requires n <= |list| && forall i :: i in list ==> i < |p.f.insts| && !p.f.insts[i].kind.IsTerminator()
    ensures Inv(p, VisitInsts(p, s, list, n), pending - Elems(list[..n]))
  {
    hide UpperBounds, Inv, ProblemOk;
    if n == 0 {
      assert pending - Elems(list[..n]) == pending;
    } else {
      assert list[n - 1] in list;
      VisitInstsCover(p, s, list, n - 1, pending);
      var rest := pending - Elems(list[..n - 1]);
      VisitInstCovers(p, VisitInsts(p, s, list, n - 1), list[n - 1], rest);
      assert list[..n] == list[..n - 1] + [list[n - 1]];
      assert rest - {list[n - 1]} == pending - Elems(list[..n]);
    }
  }

  lemma {:induction false} ProcessUsesCover<D(!new)>(p: Problem<D>, s: State<D>, us: seq<nat>, n: nat, pending: set<nat>)
    requires UpperBounds(p.dom) && ProblemOk(p) && Inv(p, s, pending)
    requires n <= |us| && forall i :: i in us ==> i < |p.f.insts|
    ensures Inv(p, ProcessUses(p, s, us, n), pending - Elems(us[..n]))
  {
    hide UpperBounds, Inv, ProblemOk;
    if n == 0 {
      assert pending - Elems(us[..n]) == pending;
    } else {
      assert us[n - 1] in us;
      ProcessUsesCover(p, s, us, n - 1, pending);
      var rest := pending - Elems(us[..n - 1]);
      ProcessUseCovers(p, ProcessUses(p, s, us, n - 1), us[n - 1], rest);
      assert us[..n] == us[..n - 1] + [us[n - 1]];
      assert rest - {us[n - 1]} == pending - Elems(us[..n]);
    }
  }

  lemma ProcessUseCovers<D(!new)>(p: Problem<D>, s: State<D>, i: nat, pending: set<nat>)
    requires UpperBounds(p.dom) && Inv(p, s, pending) && i < |p.f.insts|
    ensures Inv(p, ProcessUse(p, s, i), pending - {i})
  {
    if p.instBlock[i].Some? && p.instBlock[i].value < |s.exec| && s.exec[p.instBlock[i].value] {
      var b := p.instBlock[i].value;
      assert Placed(p.f, i, b);
      assert WellFormedBlock(p.f, b);
      if p.f.insts[i].kind.IsTerminator() {
        VisitTerminatorCovers(p, s, b, pending);
      } else {
        VisitInstCovers(p, s, i, pending);
      }
    } else {
      EvolvesSelf(p, s, {});
      EvolvesKeepsInv(p, s, s, {}, pending, {i});
    }
  }

  lemma PendingFor<D(!new)>(p: Problem<D>, b: nat) returns (pending: set<nat>)
    requires ProblemOk(p) && b < |p.f.blocks|
    ensures forall i: nat :: i in pending <==> i < |p.f.insts| && Placed(p.f, i, b)
  {
    pending := set i: nat | i < |p.f.insts| && Placed(p.f, i, b);
  }

  /** Whichever entry an iteration takes, the invariant holds again after it. */
  lemma StepKeepsInv<D(!new)>(p: Problem<D>, s: State<D>, c: Choice)
    requires UpperBounds(p.dom) && Inv(p, s, {}) && Enabled(s, c)
    ensures Inv(p, StepAt(p, s, c), {})
  {
    match c
    case TakeBlock(k) =>
      var b := s.blockWl[k];
      assert b in s.blockWl;
      var s0 := s.(blockWl := Without(s.blockWl, k));
      var pending := PendingFor(p, b);
      forall i: nat, b': nat | Live(p, s0, i, b') && i !in pending ensures Covered(p, s0, i, b') {
        assert b' != b;
        assert Live(p, s, i, b') && Covered(p, s, i, b');
        SameValsCovered(p, s, s0, i, b');
      }
      assert Inv(p, s0, pending);
      assert WellFormedBlock(p.f, b);
      var list := p.f.blocks[b].insts;
      VisitInstsCover(p, s0, list, |list|, pending);
      var rest := pending - Elems(list[..|list|]);
      assert list[..|list|] == list;
      var s1 := VisitInsts(p, s0, list, |list|);
      VisitTerminatorCovers(p, s1, b, rest);
      var t := p.f.blocks[b].term;
      assert (if t.Some? then rest - {t.value} else rest) == {};
    case TakeValue(k) =>
      var v := s.ssaWl[k];
      assert v in s.ssaWl;
      var s0 := s.(ssaWl := Without(s.ssaWl, k));
      var us := Users(p.f.uses[v]);
      var pending := Elems(us);
      forall i: nat, b: nat | Live(p, s0, i, b) && i !in pending ensures Covered(p, s0, i, b) {
        assert WellFormedInst(p.f, i);
        assert Live(p, s, i, b) && Covered(p, s, i, b);
        if Dirty(p, s, i) {
          var w :| w in p.f.insts[i].operands && w in s.ssaWl;
          UsersComplete(p.f, i, w);
          assert w != v;
          assert Dirty(p, s0, i);
        } else {
          SameValsDone(p, s, s0, i, b);
        }
      }
      assert Inv(p, s0, pending);
      ProcessUsesCover(p, s0, us, |us|, pending);
      assert us[..|us|] == us;
      assert pending - Elems(us[..|us|]) == {};
  }

  lemma SameValsDone<D(!new)>(p: Problem<D>, s: State<D>, s': State<D>, i: nat, b: nat)
    requires ProblemOk(p) && i < |p.f.insts| && s'.vals == s.vals && s'.exec == s.exec && s'.edges == s.edges
    requires Done(p, s, i, b)
    ensures Done(p, s', i, b)
  {
    assert WellFormedInst(p.f, i);
    var t := p.f.insts[i];
    assert Operands(p, s, t.operands) == Operands(p, s', t.operands);
    if t.kind.IsTerminator() {
      forall si: nat | si < EdgeCount(t.kind) && Feasible(p, s', t, si) ensures EdgeOk(p, s', b, t, si) {
        assert Feasible(p, s, t, si) && EdgeOk(p, s, b, t, si);
        assert forall k: nat :: ArgVal(p, s', t, si, k) == ArgVal(p, s, t, si, k);
      }
    }
  }

  lemma SameValsCovered<D(!new)>(p: Problem<D>, s: State<D>, s': State<D>, i: nat, b: nat)
    requires ProblemOk(p) && i < |p.f.insts| && s'.vals == s.vals && s'.exec == s.exec && s'.edges == s.edges
    requires s'.ssaWl == s.ssaWl && Covered(p, s, i, b)
    ensures Covered(p, s', i, b)
  {
    if !Dirty(p, s, i) { SameValsDone(p, s, s', i, b); }
  }

  lemma StartInv<D(!new)>(p: Problem<D>)
    requires UpperBounds(p.dom) && ProblemOk(p)
    ensures Inv(p, Start(p), {})
  { }

  // ------------------------------------------------------- concrete executions

  /** A point of a concrete execution: about to run instruction `pos` of
      `block` (its terminator, past the last) with the values bound so far. */
  datatype Config<C> = Config(block: nat, pos: nat, env: map<nat, C>)

  ghost predicate Reads<C>(env: map<nat, C>, vs: seq<nat>, cs: seq<C>) {
    |cs| == |vs| && forall k :: 0 <= k < |vs| ==> vs[k] in env && env[vs[k]] == cs[k]
  }

  ghost predicate RunsInst<D, C(!new)>(p: Problem<D>, sem: Concrete<D, C>, c: Config<C>, c': Config<C>) {
    && c.block < |p.f.blocks| && c.pos < |p.f.blocks[c.block].insts|
    && p.f.blocks[c.block].insts[c.pos] < |p.f.insts|
    && c'.block == c.block && c'.pos == c.pos + 1
    && var i := p.f.blocks[c.block].insts[c.pos];
       match p.f.insts[i].result
       case None => c'.env == c.env
       case Some(r) => exists cs, x :: Reads(c.env, p.f.insts[i].operands, cs) && sem.evaluates(i, cs, x)
                                       && c'.env == c.env[r := x]
  }

  /** `env'` binds the parameters to the argument values, and nothing else is
      new; a parameter without an argument may hold anything. */
  ghost predicate Binds<C>(env: map<nat, C>, env': map<nat, C>, params: seq<nat>, args: seq<nat>) {
    && (forall k: nat :: k < |params| && k < |args| && params[k] in env' ==>
          args[k] in env && env'[params[k]] == env[args[k]])
    && (forall v :: v in env' && v !in params ==> v in env && env'[v] == env[v])
  }

  /** A conditional branch takes its first edge where the condition is true and its second
      where it is not; a switch takes the edge of a case that the value equals, and the
      default's where it equals none. */
  ghost predicate Chooses<D, C>(sem: Concrete<D, C>, t: Inst, si: nat, env: map<nat, C>)
    requires HasEdge(t.kind, si)
  {
    match t.kind
    case Br(_) => true
    case CondBr(_, _, _, _) => t.operands != [] && t.operands[0] in env && sem.truth(env[t.operands[0]]) == (si == 0)
    case Switch(_, _, cases) =>
      && t.operands != [] && t.operands[0] in env
      && var n := sem.number(env[t.operands[0]]);
         if si == 0 then forall i :: 0 <= i < |cases| ==> cases[i].value != n else cases[si - 1].value == n
  }

  /** Edge `si` of the block's terminator: the parameters of its target are bound to the
      operands that the edge's argument counts give. */
  ghost predicate TakesEdge<D, C>(p: Problem<D>, sem: Concrete<D, C>, c: Config<C>, c': Config<C>, si: nat) {
    && c.block < |p.f.blocks| && c.pos == |p.f.blocks[c.block].insts|
    && p.f.blocks[c.block].term.Some? && p.f.blocks[c.block].term.value < |p.f.insts|
    && var t := p.f.insts[p.f.blocks[c.block].term.value];
       && HasEdge(t.kind, si) && ArgFrom(t, si) + ArgNum(t, si) <= |t.operands|
       && Chooses(sem, t, si, c.env)
       && c'.block == EdgeTo(t.kind, si) && c'.pos == 0
       && Binds(c.env, c'.env, ParamsOf(p, c'.block), t.operands[ArgFrom(t, si)..ArgFrom(t, si) + ArgNum(t, si)])
  }

  ghost predicate ConcreteStep<D, C(!new)>(p: Problem<D>, sem: Concrete<D, C>, c: Config<C>, c': Config<C>) {
    RunsInst(p, sem, c, c') || exists si: nat :: TakesEdge(p, sem, c, c', si)
  }

  /** Execution starts at the entry: constants are themselves, the entry's parameters and
      addresses anything that a seed given for them allows. */
  ghost predicate Initial<D, C>(p: Problem<D>, sem: Concrete<D, C>, c: Config<C>) {
    && p.f.entry == Some(c.block) && c.pos == 0
    && forall v :: v in c.env ==> v < |p.f.values| && BeginsAs(p, sem, v, c.env[v])
  }

  ghost predicate BeginsAs<D, C>(p: Problem<D>, sem: Concrete<D, C>, v: nat, x: C)
    requires v < |p.f.values|
  {
    && (p.dom.seed(v).Some? ==> sem.contains(p.dom.seed(v).value, x))
    && match p.f.values[v]
       case FromInst(_) => false
       case Param(b, _) => p.f.entry == Some(b)
       case Const(k) => x == sem.constant(k)
       case GlobalRef(_) => true
  }

  lemma BeginsCovered<D(!new), C(!new)>(p: Problem<D>, sem: Concrete<D, C>, v: nat, x: C)
    requires SoundDomain(p.dom, sem) && v < |p.f.values| && BeginsAs(p, sem, v, x)
    ensures !p.f.values[v].FromInst? && sem.contains(Init(p, v), x)
  { }

  ghost predicate IsExecution<D, C(!new)>(p: Problem<D>, sem: Concrete<D, C>, run: seq<Config<C>>) {
    && run != [] && Initial(p, sem, run[0])
    && forall k :: 0 <= k < |run| - 1 ==> ConcreteStep(p, sem, run[k], run[k + 1])
  }

  /** The block is marked reachable and every bound value is covered. */
  ghost predicate Covers<D, C>(p: Problem<D>, sem: Concrete<D, C>, s: State<D>, c: Config<C>) {
    && c.block < |s.exec| && s.exec[c.block]
    && forall v :: v in c.env ==> v < |s.vals| && sem.contains(s.vals[v], c.env[v])
  }

  lemma CoversInst<D(!new), C(!new)>(p: Problem<D>, sem: Concrete<D, C>, s: State<D>, c: Config<C>, c': Config<C>)
    requires UpperBounds(p.dom) && SoundDomain(p.dom, sem) && Inv(p, s, {}) && Stopped(s)
    requires Covers(p, sem, s, c) && RunsInst(p, sem, c, c')
    ensures Covers(p, sem, s, c')
  {
    var i := p.f.blocks[c.block].insts[c.pos];
    assert WellFormedBlock(p.f, c.block) && WellFormedInst(p.f, i);
    assert i in p.f.blocks[c.block].insts;
    assert Placed(p.f, i, c.block) && Live(p, s, i, c.block);
    assert Covered(p, s, i, c.block) && InstOk(p, s, i);
    if p.f.insts[i].result.Some? {
      var cs, x :| Reads(c.env, p.f.insts[i].operands, cs) && sem.evaluates(i, cs, x)
                   && c'.env == c.env[p.f.insts[i].result.value := x];
      var ds := Operands(p, s, p.f.insts[i].operands);
      assert ContainsAll(sem, ds, cs);
      assert sem.contains(p.dom.Apply(i, ds), x);
    }
  }

  lemma AtTerminator<D(!new)>(p: Problem<D>, s: State<D>, b: nat, i: nat)
    requires Inv(p, s, {}) && Stopped(s) && b < |s.exec| && s.exec[b] && p.f.blocks[b].term == Some(i)
    ensures i < |p.f.insts| && OperandsFit(p.f.insts[i]) && TermOk(p, s, b, p.f.insts[i])
  {
    hide SeedsBelow, OperandsFit, TermOk;
    assert WellFormedBlock(p.f, b) && WellFormedInst(p.f, i);
    assert Placed(p.f, i, b) && Live(p, s, i, b);
    assert Covered(p, s, i, b);
  }

  lemma FeasibleOk<D(!new)>(p: Problem<D>, s: State<D>, b: nat, t: Inst, si: nat)
    requires OperandsFit(t) && TermOk(p, s, b, t) && si < EdgeCount(t.kind) && Feasible(p, s, t, si)
    ensures EdgeOk(p, s, b, t, si)
  { }

  lemma CoversEdge<D(!new), C(!new)>(p: Problem<D>, sem: Concrete<D, C>, s: State<D>, c: Config<C>, c': Config<C>, si: nat)
    requires UpperBounds(p.dom) && SoundDomain(p.dom, sem) && Inv(p, s, {}) && Stopped(s)
    requires Covers(p, sem, s, c) && TakesEdge(p, sem, c, c', si)
    ensures Covers(p, sem, s, c') && s.edges[c.block][si]
  {
    hide UpperBounds, SoundDomain, Chooses, HasEdge, EdgeTo, ArgNum, ArgFrom, EdgeArgs, EdgeCount, OperandsFit, Feasible, Binds,
         TermOk, WellFormedFunction, SeedsBelow, Live, Covered;
    var i := p.f.blocks[c.block].term.value;
    var t := p.f.insts[i];
    AtTerminator(p, s, c.block, i);
    EdgesMean(t, si);
    ChosenFeasible(p, sem, s, c, t, si);
    FeasibleOk(p, s, c.block, t, si);
    CoversBound(p, sem, s, c, c', t, si);
  }

  /** The edge that an execution chooses is feasible for values that cover it. */
  lemma ChosenFeasible<D(!new), C(!new)>(p: Problem<D>, sem: Concrete<D, C>, s: State<D>, c: Config<C>, t: Inst, si: nat)
    requires SoundDomain(p.dom, sem) && Covers(p, sem, s, c) && HasEdge(t.kind, si) && Chooses(sem, t, si, c.env)
    requires si < EdgeCount(t.kind)
    ensures Feasible(p, s, t, si)
  {
    if !t.kind.Br? {
      var d, x := Val(p, s, t.operands[0]), c.env[t.operands[0]];
      assert sem.contains(d, x);
      if t.kind.CondBr? {
        assert p.dom.edgeFeasible(d, CondIs(sem.truth(x)));
      } else if si == 0 {
        var vs := seq(|t.kind.cases|, i requires 0 <= i < |t.kind.cases| => t.kind.cases[i].value);
        assert p.dom.edgeFeasible(d, CondNotAnyOf(vs));
      } else {
        assert p.dom.edgeFeasible(d, CondEquals(sem.number(x)));
      }
    }
  }

  /** What an edge binds is covered, its parameters being above their arguments. */
  lemma CoversBound<D(!new), C(!new)>(p: Problem<D>, sem: Concrete<D, C>, s: State<D>, c: Config<C>, c': Config<C>, t: Inst, si: nat)
    requires SoundDomain(p.dom, sem) && ProblemOk(p) && Sized(p, s) && Covers(p, sem, s, c)
    requires OperandsFit(t) && si < EdgeCount(t.kind) && c'.block == Target(t, si) && EdgeOk(p, s, c.block, t, si)
    requires Binds(c.env, c'.env, ParamsOf(p, c'.block), EdgeArgs(t, si))
    ensures Covers(p, sem, s, c')
  {
    hide OperandsFit, EdgeArgs, EdgeCount, Target, WellFormedInst;
    var params := ParamsOf(p, c'.block);
    assert c'.block < |p.f.blocks| && WellFormedBlock(p.f, c'.block);
    forall v | v in c'.env ensures v < |s.vals| && sem.contains(s.vals[v], c'.env[v]) {
      if v in params {
        var k :| 0 <= k < |params| && params[k] == v;
        assert p.dom.le(ArgVal(p, s, t, si, k), Val(p, s, v));
        if k < |EdgeArgs(t, si)| {
          assert EdgeArgs(t, si)[k] in c.env && c'.env[v] == c.env[EdgeArgs(t, si)[k]];
          assert sem.contains(ArgVal(p, s, t, si, k), c'.env[v]);
        } else {
          assert sem.contains(p.dom.top, c'.env[v]);
        }
      }
    }
  }

  /** When the worklists are empty, the result covers every concrete execution:
      each block it enters is reachable and each value it computes lies in the
      concretization of its abstract value. */
  lemma {:induction false} SolverIsSound<D(!new), C(!new)>(p: Problem<D>, sem: Concrete<D, C>, s: State<D>, run: seq<Config<C>>)
    requires UpperBounds(p.dom) && SoundDomain(p.dom, sem) && Inv(p, s, {}) && Stopped(s)
    requires IsExecution(p, sem, run)
    ensures forall k :: 0 <= k < |run| ==> Covers(p, sem, s, run[k])
    decreases |run|
  {
    var m := |run| - 1;
    if m == 0 {
      forall v | v in run[0].env ensures v < |s.vals| && sem.contains(s.vals[v], run[0].env[v]) {
        BeginsCovered(p, sem, v, run[0].env[v]);
        assert p.dom.le(Init(p, v), s.vals[v]);
      }
    } else {
      assert IsExecution(p, sem, run[..m]);
      SolverIsSound(p, sem, s, run[..m]);
      assert Covers(p, sem, s, run[..m][m - 1]);
      assert ConcreteStep(p, sem, run[m - 1], run[m - 1 + 1]);
      if RunsInst(p, sem, run[m - 1], run[m]) {
        CoversInst(p, sem, s, run[m - 1], run[m]);
      } else {
        var si: nat :| TakesEdge(p, sem, run[m - 1], run[m], si);
        CoversEdge(p, sem, s, run[m - 1], run[m], si);
      }
      forall k | 0 <= k < |run| ensures Covers(p, sem, s, run[k]) {
        if k < m { assert Covers(p, sem, s, run[..m][k]); }
      }
    }
  }
}
