/** When a widening solver run is sure to stop: exactly when the values have an order in
    which nothing feeds back but into loop headers. Without one there is a domain with
    sound joins and a widening that stops on which no run ever ends. */
module Revisions {
  import opened Wrappers
  import opened Paths
  import opened Ir
  import opened AbstractDomain
  import opened SolverSteps
  import opened SolverSound
  import opened SolverLeast
  import opened SolverWidens
  import opened WidenOrder

  // ------------------------------------------------------------ a domain that counts

  /** Nothing yet, or anything. What may be anything also says how often it was revised:
      the order does not look at that number, but a change of it is a change. */
  datatype Revision = Nothing | Anything(n: nat)
  {
    function Number(): nat {
      match this case Nothing => 0 case Anything(n) => n
    }
  }

  function Total(ds: seq<Revision>): nat {
    if ds == [] then 0 else Total(ds[..|ds| - 1]) + ds[|ds| - 1].Number()
  }

  function Revising(): Domain<Revision> {
    Domain(Nothing, Anything(0),
           (a: Revision, b: Revision) => Anything(a.Number() + b.Number() + 1),
           (a: Revision, b: Revision) => if a.Anything? then a else Anything(b.Number()),
           (a: Revision, b: Revision) => a.Nothing? || b.Anything?,
           (c: int) => Anything(0),
           (i: nat, ds: seq<Revision>) => Anything(1 + Total(ds)),
           (d: Revision, g: Guard) => true,
           (v: nat) => None,
           (i: nat, ds: seq<Revision>) => None)
  }

  function Rank(d: Revision): nat {
    match d case Nothing => 1 case Anything(_) => 0
  }

  /** Its joins and widenings are upper bounds, its transfers monotone, and a header's
      parameter changes at most once. */
  lemma RevisingLaws()
    ensures UpperBounds(Revising()) && MonotoneTransfer(Revising()) && WideningStops(Revising(), Rank)
  { }

  ghost predicate OnRevisions(p: Problem<Revision>) {
    ProblemOk(p) && p.dom == Revising()
  }

  lemma MergedRaises(p: Problem<Revision>, b: nat, old_: Revision, arg: Revision)
    requires p.dom == Revising()
    ensures Merged(p, b, old_, arg) == old_ || old_.Number() < Merged(p, b, old_, arg).Number()
    ensures !IsHeader(p, b) ==> old_.Number() < Merged(p, b, old_, arg).Number()
  { }

  lemma TransferredCounts(p: Problem<Revision>, s: State<Revision>, i: nat)
    requires p.dom == Revising() && i < |p.f.insts|
    ensures Transferred(p, s, i) == Anything(1 + Total(Operands(p, s, p.f.insts[i].operands)))
  { }

  lemma AllFeasible(p: Problem<Revision>, s: State<Revision>, i: nat, si: nat)
    requires OnRevisions(p) && i < |p.f.insts| && si < EdgeCount(p.f.insts[i].kind)
    ensures Feasible(p, s, p.f.insts[i], si)
  {
    assert WellFormedInst(p.f, i);
  }

  ghost predicate NoneLower(a: seq<Revision>, b: seq<Revision>) {
    |a| == |b| && forall k :: 0 <= k < |a| ==> a[k].Number() <= b[k].Number()
  }

  lemma {:induction false} TotalRises(a: seq<Revision>, b: seq<Revision>)
    requires NoneLower(a, b)
    ensures Total(a) <= Total(b)
    ensures forall k :: 0 <= k < |a| && a[k].Number() < b[k].Number() ==> Total(a) < Total(b)
  {
    if a != [] { TotalRises(a[..|a| - 1], b[..|b| - 1]); }
  }

  lemma {:induction false} TotalCovers(a: seq<Revision>, k: nat)
    requires k < |a|
    ensures a[k].Number() <= Total(a)
  {
    if k < |a| - 1 { TotalCovers(a[..|a| - 1], k); }
  }

  // ------------------------------------------------------------------ single steps

  /** A value is as it was, or has a later number and is still to be propagated. */
  ghost predicate Rose(s: State<Revision>, s': State<Revision>, v: nat)
    requires v < |s.vals| == |s'.vals|
  {
    s'.vals[v] == s.vals[v] || (s.vals[v].Number() < s'.vals[v].Number() && v in s'.ssaWl)
  }

  /** One sub-step: values only rise, worklists only grow, and whatever became
      executable is listed. */
  ghost predicate Moves(p: Problem<Revision>, s: State<Revision>, s': State<Revision>) {
    && Sized(p, s) && Sized(p, s')
    && (forall b: nat :: b < |s.exec| && s.exec[b] ==> s'.exec[b])
    && (forall b: nat :: b < |s'.exec| && s'.exec[b] ==> s.exec[b] || b in s'.blockWl)
    && (forall b: nat :: b in s.blockWl ==> b in s'.blockWl)
    && (forall v: nat :: v in s.ssaWl ==> v in s'.ssaWl)
    && (forall v: nat :: v < |s.vals| ==> Rose(s, s', v))
  }

  /** No result is past the transfer of its operands. */
  ghost predicate Low(p: Problem<Revision>, s: State<Revision>) {
    forall i: nat :: i < |p.f.insts| && p.f.insts[i].result.Some? ==> LowAt(p, s, i)
  }

  ghost predicate LowAt(p: Problem<Revision>, s: State<Revision>, i: nat)
    requires i < |p.f.insts| && p.f.insts[i].result.Some?
  {
    Val(p, s, p.f.insts[i].result.value).Number() <= Transferred(p, s, i).Number()
  }

  ghost predicate Steps(p: Problem<Revision>, s: State<Revision>, s': State<Revision>) {
    Moves(p, s, s') && Low(p, s')
  }

  lemma MovesSelf(p: Problem<Revision>, s: State<Revision>)
    requires Sized(p, s)
    ensures Moves(p, s, s)
  { }

  lemma MovesTrans(p: Problem<Revision>, a: State<Revision>, b: State<Revision>, c: State<Revision>)
    requires Moves(p, a, b) && Moves(p, b, c)
    ensures Moves(p, a, c)
  {
    forall v: nat | v < |a.vals| ensures Rose(a, c, v) {
      assert Rose(a, b, v) && Rose(b, c, v);
    }
  }

  lemma TransferRises(p: Problem<Revision>, s: State<Revision>, s': State<Revision>, i: nat)
    requires OnRevisions(p) && Moves(p, s, s') && i < |p.f.insts|
    ensures Transferred(p, s, i).Number() <= Transferred(p, s', i).Number()
    ensures forall v: nat :: v in p.f.insts[i].operands && v < |s.vals| && s'.vals[v] != s.vals[v] ==>
              Transferred(p, s, i).Number() < Transferred(p, s', i).Number()
  {
    hide Revising, ProblemOk, Moves, Transferred;
    var vs := p.f.insts[i].operands;
    TransferredCounts(p, s, i);
    TransferredCounts(p, s', i);
    var a, b := Operands(p, s, vs), Operands(p, s', vs);
    MovesNoneLower(p, s, s', vs);
    TotalRises(a, b);
    forall v: nat | v in vs && v < |s.vals| && s'.vals[v] != s.vals[v] ensures Total(a) < Total(b) {
      var k :| 0 <= k < |vs| && vs[k] == v;
      assert a[k].Number() < b[k].Number();
    }
  }

  lemma MovesNoneLower(p: Problem<Revision>, s: State<Revision>, s': State<Revision>, vs: seq<nat>)
    requires Moves(p, s, s')
    ensures |s.vals| == |s'.vals| && NoneLower(Operands(p, s, vs), Operands(p, s', vs))
    ensures forall v: nat :: v < |s.vals| && s'.vals[v] != s.vals[v] ==> s.vals[v].Number() < s'.vals[v].Number()
  {
    forall k | 0 <= k < |vs| ensures Val(p, s, vs[k]).Number() <= Val(p, s', vs[k]).Number() {
      if vs[k] < |s.vals| { assert Rose(s, s', vs[k]); }
    }
    forall v: nat | v < |s.vals| && s'.vals[v] != s.vals[v] ensures s.vals[v].Number() < s'.vals[v].Number() {
      assert Rose(s, s', v);
    }
  }

  /** A store of a later number keeps results low, if what is stored in a result is
      its instruction's transfer. */
  lemma SetSteps(p: Problem<Revision>, s: State<Revision>, v: nat, d: Revision)
    requires OnRevisions(p) && Sized(p, s) && Low(p, s) && v < |s.vals|
    requires d == s.vals[v] || s.vals[v].Number() < d.Number()
    requires forall i: nat :: p.f.values[v] == FromInst(i) && i < |p.f.insts| ==> d == Transferred(p, s, i)
    ensures Steps(p, s, SetVal(s, v, d))
  {
    hide Revising, Transferred, ProblemOk, Moves, LowAt;
    var s' := SetVal(s, v, d);
    SetMoves(p, s, v, d);
    forall i: nat | i < |p.f.insts| && p.f.insts[i].result.Some? ensures LowAt(p, s', i) {
      ResultDefined(p, i);
      TransferRises(p, s, s', i);
      SetLow(p, s, v, d, i);
    }
  }

  lemma SetMoves(p: Problem<Revision>, s: State<Revision>, v: nat, d: Revision)
    requires Sized(p, s) && v < |s.vals| && (d == s.vals[v] || s.vals[v].Number() < d.Number())
    ensures Moves(p, s, SetVal(s, v, d))
  { }

  lemma ResultDefined(p: Problem<Revision>, i: nat)
    requires ProblemOk(p) && i < |p.f.insts| && p.f.insts[i].result.Some?
    ensures p.f.insts[i].result.value < |p.f.values| && p.f.values[p.f.insts[i].result.value] == FromInst(i)
    ensures !p.f.insts[i].kind.IsTerminator()
  {
    assert WellFormedInst(p.f, i);
  }

  lemma SetLow(p: Problem<Revision>, s: State<Revision>, v: nat, d: Revision, i: nat)
    requires i < |p.f.insts| && p.f.insts[i].result.Some? && p.f.insts[i].result.value < |s.vals| && v < |s.vals|
    requires Low(p, s) && Transferred(p, s, i).Number() <= Transferred(p, SetVal(s, v, d), i).Number()
    requires v == p.f.insts[i].result.value ==> d == Transferred(p, s, i)
    ensures LowAt(p, SetVal(s, v, d), i)
  {
    hide Transferred;
    assert LowAt(p, s, i);
  }

  lemma SameValsLow(p: Problem<Revision>, s: State<Revision>, s': State<Revision>)
    requires Low(p, s) && s'.vals == s.vals
    ensures Low(p, s')
  {
    forall i: nat | i < |p.f.insts| && p.f.insts[i].result.Some? ensures LowAt(p, s', i) {
      assert LowAt(p, s, i);
      assert Operands(p, s, p.f.insts[i].operands) == Operands(p, s', p.f.insts[i].operands);
    }
  }

  lemma VisitInstSteps(p: Problem<Revision>, s: State<Revision>, i: nat)
    requires OnRevisions(p) && Sized(p, s) && Low(p, s) && i < |p.f.insts|
    ensures Steps(p, s, VisitInst(p, s, i))
  {
    hide Revising, Transferred, ProblemOk, Moves, Sized;
    if p.f.insts[i].result.Some? {
      var r := p.f.insts[i].result.value;
      ResultDefined(p, i);
      SizedVals(p, s);
      assert LowAt(p, s, i);
      TransferredCounts(p, s, i);
      SetSteps(p, s, r, Transferred(p, s, i));
    } else {
      MovesSelf(p, s);
    }
  }

  lemma SizedVals(p: Problem<Revision>, s: State<Revision>)
    requires Sized(p, s)
    ensures |s.vals| == |p.f.values|
  { }

  lemma {:induction false} VisitInstsStep(p: Problem<Revision>, s: State<Revision>, list: seq<nat>, n: nat)
    requires OnRevisions(p) && Sized(p, s) && Low(p, s) && n <= |list| && forall i :: i in list ==> i < |p.f.insts|
    ensures Steps(p, s, VisitInsts(p, s, list, n))
  {
    hide OnRevisions, Moves, Sized, Low, VisitInst;
    MovesSelf(p, s);
    if n > 0 {
      VisitInstsStep(p, s, list, n - 1);
      assert list[n - 1] in list;
      var s1 := VisitInsts(p, s, list, n - 1);
      MovesSized(p, s, s1);
      VisitInstSteps(p, s1, list[n - 1]);
      MovesTrans(p, s, s1, VisitInst(p, s1, list[n - 1]));
    }
  }

  lemma MovesSized(p: Problem<Revision>, s: State<Revision>, s': State<Revision>)
    requires Moves(p, s, s')
    ensures Sized(p, s) && Sized(p, s')
  { }

  // ------------------------------------------------- a terminator renews its parameters

  /** The first `n` parameters of `b`, unless it is a header, hold later numbers. */
  ghost predicate Renewed(p: Problem<Revision>, s: State<Revision>, s': State<Revision>, b: nat, n: nat)
    requires n <= |ParamsOf(p, b)|
  {
    !IsHeader(p, b) ==> forall k: nat :: k < n ==> Later(p, s, s', ParamsOf(p, b)[k])
  }

  ghost predicate Later(p: Problem<Revision>, s: State<Revision>, s': State<Revision>, v: nat) {
    Val(p, s, v).Number() < Val(p, s', v).Number()
  }

  ghost predicate RenewsAll(p: Problem<Revision>, s: State<Revision>, s': State<Revision>, t: Inst) {
    forall si: nat :: si < EdgeCount(t.kind) ==> Renewed(p, s, s', Target(t, si), |ParamsOf(p, Target(t, si))|)
  }

  /** Later steps, and earlier ones, only make it later. */
  lemma LaterAround(p: Problem<Revision>, a: State<Revision>, b: State<Revision>, c: State<Revision>, d: State<Revision>, v: nat)
    requires Moves(p, a, b) && Later(p, b, c, v) && Moves(p, c, d) && v < |p.f.values|
    ensures Later(p, a, d, v)
  {
    assert Rose(a, b, v) && Rose(c, d, v);
  }

  lemma RenewedAround(p: Problem<Revision>, a: State<Revision>, b: State<Revision>, c: State<Revision>, d: State<Revision>,
                      t: nat, n: nat)
    requires ProblemOk(p) && n <= |ParamsOf(p, t)| && Moves(p, a, b) && Renewed(p, b, c, t, n) && Moves(p, c, d)
    ensures Renewed(p, a, d, t, n)
  {
    hide Moves, Later, ProblemOk;
    if !IsHeader(p, t) {
      forall k: nat | k < n ensures Later(p, a, d, ParamsOf(p, t)[k]) {
        ParamIsOwn(p, t, k);
        LaterAround(p, a, b, c, d, ParamsOf(p, t)[k]);
      }
    }
  }

  lemma RenewsAround(p: Problem<Revision>, a: State<Revision>, b: State<Revision>, c: State<Revision>, d: State<Revision>, t: Inst)
    requires ProblemOk(p) && Moves(p, a, b) && RenewsAll(p, b, c, t) && Moves(p, c, d)
    ensures RenewsAll(p, a, d, t)
  {
    hide Moves, Renewed, ProblemOk;
    forall si: nat | si < EdgeCount(t.kind) ensures Renewed(p, a, d, Target(t, si), |ParamsOf(p, Target(t, si))|) {
      RenewedAround(p, a, b, c, d, Target(t, si), |ParamsOf(p, Target(t, si))|);
    }
  }

  lemma {:induction false} UpdateParamsStep(p: Problem<Revision>, s: State<Revision>, t: Inst, si: nat, n: nat)
    requires OnRevisions(p) && Sized(p, s) && Low(p, s) && OperandsFit(t) && si < EdgeCount(t.kind)
    requires n <= |ParamsOf(p, Target(t, si))|
    ensures Steps(p, s, UpdateParams(p, s, t, si, n))
    ensures Renewed(p, s, UpdateParams(p, s, t, si, n), Target(t, si), n)
  {
    hide OnRevisions, Moves, Sized, Low, ArgVal, Merged, OperandsFit, Target, EdgeCount, ParamsOf, IsHeader, Later;
    MovesSelf(p, s);
    if n > 0 {
      UpdateParamsStep(p, s, t, si, n - 1);
      var s1, b := UpdateParams(p, s, t, si, n - 1), Target(t, si);
      MovesSized(p, s, s1);
      ParamStep(p, s1, b, n - 1, ArgVal(p, s1, t, si, n - 1));
      var param := ParamsOf(p, b)[n - 1];
      var s2 := SetVal(s1, param, Merged(p, b, Val(p, s1, param), ArgVal(p, s1, t, si, n - 1)));
      MovesTrans(p, s, s1, s2);
      OnOk(p);
      MovesSelf(p, s2);
      MovesSelf(p, s);
      RenewedAround(p, s, s, s1, s2, b, n - 1);
      if !IsHeader(p, b) { ParamIsOwn(p, b, n - 1); LaterAround(p, s, s1, s2, s2, param); }
    }
  }

  lemma OnOk(p: Problem<Revision>)
    requires OnRevisions(p)
    ensures ProblemOk(p) && p.dom == Revising()
  { }

  lemma ParamStep(p: Problem<Revision>, s: State<Revision>, b: nat, k: nat, arg: Revision)
    requires OnRevisions(p) && Sized(p, s) && Low(p, s) && k < |ParamsOf(p, b)|
    ensures var param := ParamsOf(p, b)[k];
            var s' := SetVal(s, param, Merged(p, b, Val(p, s, param), arg));
            Steps(p, s, s') && (!IsHeader(p, b) ==> Later(p, s, s', param))
  {
    hide Revising, WellFormedFunction, Moves, Low, Merged;
    var param := ParamsOf(p, b)[k];
    ParamDefined(p, b, k);
    var d := Merged(p, b, Val(p, s, param), arg);
    MergedRaises(p, b, Val(p, s, param), arg);
    SetSteps(p, s, param, d);
  }

  lemma ParamDefined(p: Problem<Revision>, b: nat, k: nat)
    requires ProblemOk(p) && k < |ParamsOf(p, b)|
    ensures ParamsOf(p, b)[k] < |p.f.values| && p.f.values[ParamsOf(p, b)[k]].Param?
  {
    assert WellFormedBlock(p.f, b);
  }

  lemma MarkEdgeSteps(p: Problem<Revision>, s: State<Revision>, b: nat, si: nat)
    requires Sized(p, s) && Low(p, s)
    ensures Steps(p, s, MarkEdge(s, b, si)) && MarkEdge(s, b, si).vals == s.vals
  {
    SameValsLow(p, s, MarkEdge(s, b, si));
  }

  lemma MarkBlockSteps(p: Problem<Revision>, s: State<Revision>, b: nat)
    requires Sized(p, s) && Low(p, s)
    ensures Steps(p, s, MarkBlock(s, b))
  {
    SameValsLow(p, s, MarkBlock(s, b));
  }

  lemma TakeEdgeSteps(p: Problem<Revision>, s: State<Revision>, b: nat, t: Inst, si: nat)
    requires OnRevisions(p) && Sized(p, s) && Low(p, s) && OperandsFit(t) && si < EdgeCount(t.kind)
    ensures Steps(p, s, TakeEdge(p, s, b, t, si))
    ensures Renewed(p, s, TakeEdge(p, s, b, t, si), Target(t, si), |ParamsOf(p, Target(t, si))|)
  {
    hide OnRevisions, Moves, Sized, Low, OperandsFit, Target, EdgeCount, ParamsOf, IsHeader, Renewed, UpdateParams, MarkEdge, MarkBlock;
    OnOk(p);
    var c := Target(t, si);
    var s1 := MarkEdge(s, b, si);
    MarkEdgeSteps(p, s, b, si);
    MovesSized(p, s, s1);
    var s2 := UpdateParams(p, s1, t, si, |ParamsOf(p, c)|);
    UpdateParamsStep(p, s1, t, si, |ParamsOf(p, c)|);
    MovesSized(p, s1, s2);
    var s3 := MarkBlock(s2, c);
    MarkBlockSteps(p, s2, c);
    MovesTrans(p, s, s1, s2);
    MovesTrans(p, s, s2, s3);
    RenewedAround(p, s, s1, s2, s3, c, |ParamsOf(p, c)|);
  }

  ghost predicate EdgesRenewed(p: Problem<Revision>, s: State<Revision>, s': State<Revision>, t: Inst, sis: seq<nat>, n: nat)
    requires n <= |sis| && forall k :: 0 <= k < |sis| ==> sis[k] < EdgeCount(t.kind)
  {
    forall k :: 0 <= k < n ==> Renewed(p, s, s', Target(t, sis[k]), |ParamsOf(p, Target(t, sis[k]))|)
  }

  lemma {:induction false} TakeEdgesStep(p: Problem<Revision>, s: State<Revision>, b: nat, t: Inst, sis: seq<nat>, n: nat)
    requires OnRevisions(p) && Sized(p, s) && Low(p, s) && OperandsFit(t)
    requires n <= |sis| && forall k :: 0 <= k < |sis| ==> sis[k] < EdgeCount(t.kind)
    ensures Steps(p, s, TakeEdges(p, s, b, t, sis, n))
    ensures EdgesRenewed(p, s, TakeEdges(p, s, b, t, sis, n), t, sis, n)
  {
    hide OnRevisions, Moves, Sized, Low, OperandsFit, Target, EdgeCount, ParamsOf, Renewed, TakeEdge;
    MovesSelf(p, s);
    if n > 0 {
      TakeEdgesStep(p, s, b, t, sis, n - 1);
      OnOk(p);
      var s1 := TakeEdges(p, s, b, t, sis, n - 1);
      MovesSized(p, s, s1);
      TakeEdgeSteps(p, s1, b, t, sis[n - 1]);
      var s2 := TakeEdge(p, s1, b, t, sis[n - 1]);
      MovesTrans(p, s, s1, s2);
      MovesSized(p, s1, s2);
      MovesSelf(p, s2);
      forall k | 0 <= k < n ensures Renewed(p, s, s2, Target(t, sis[k]), |ParamsOf(p, Target(t, sis[k]))|) {
        var c := Target(t, sis[k]);
        if k < n - 1 {
          RenewedAround(p, s, s, s1, s2, c, |ParamsOf(p, c)|);
        } else {
          RenewedAround(p, s, s1, s2, s2, c, |ParamsOf(p, c)|);
        }
      }
    }
  }

  /** A visit of a terminator renews the parameters of all its targets. */
  lemma VisitTerminatorSteps(p: Problem<Revision>, s: State<Revision>, b: nat)
    requires OnRevisions(p) && Sized(p, s) && Low(p, s) && b < |p.f.blocks|
    ensures Steps(p, s, VisitTerminator(p, s, b))
    ensures p.f.blocks[b].term.Some? && p.f.blocks[b].term.value < |p.f.insts| ==>
              RenewsAll(p, s, VisitTerminator(p, s, b), p.f.insts[p.f.blocks[b].term.value])
  {
    hide Moves, Sized, Low, Renewed, TakeEdges, WellFormedFunction, Revising, Feasible, EdgeCount, Target, ParamsOf;
    if p.f.blocks[b].term.Some? {
      TermAt(p, b);
      var i := p.f.blocks[b].term.value;
      var t := p.f.insts[i];
      var sis := FeasibleEdges(p, s, t, EdgeCount(t.kind));
      TakeEdgesStep(p, s, b, t, sis, |sis|);
      var s' := TakeEdges(p, s, b, t, sis, |sis|);
      forall si: nat | si < EdgeCount(t.kind) ensures Renewed(p, s, s', Target(t, si), |ParamsOf(p, Target(t, si))|) {
        AllFeasible(p, s, i, si);
        assert si in sis;
      }
    } else {
      MovesSelf(p, s);
    }
  }

  /** If `i` is a terminator in an executable block, its targets are renewed. */
  ghost predicate UseRenewed(p: Problem<Revision>, s: State<Revision>, s': State<Revision>, i: nat) {
    i < |p.f.insts| && p.f.insts[i].kind.IsTerminator() && Runs(p, s, i) ==> RenewsAll(p, s, s', p.f.insts[i])
  }

  predicate Runs(p: Problem<Revision>, s: State<Revision>, i: nat) {
    i < |p.instBlock| && p.instBlock[i].Some? && p.instBlock[i].value < |s.exec| && s.exec[p.instBlock[i].value]
  }

  lemma ProcessUseSteps(p: Problem<Revision>, s: State<Revision>, i: nat)
    requires OnRevisions(p) && Sized(p, s) && Low(p, s) && i < |p.f.insts|
    ensures Steps(p, s, ProcessUse(p, s, i)) && UseRenewed(p, s, ProcessUse(p, s, i), i)
  {
    hide Revising, WellFormedFunction, Moves, Sized, Low, VisitTerminator, VisitInst, RenewsAll;
    if Runs(p, s, i) {
      var b := p.instBlock[i].value;
      assert Placed(p.f, i, b);
      if p.f.insts[i].kind.IsTerminator() {
        PlacedAsTerm(p, i, b);
        VisitTerminatorSteps(p, s, b);
      } else {
        VisitInstSteps(p, s, i);
      }
    } else {
      MovesSelf(p, s);
    }
  }

  lemma UseRenewedAround(p: Problem<Revision>, a: State<Revision>, b: State<Revision>, c: State<Revision>, d: State<Revision>, i: nat)
    requires ProblemOk(p) && Moves(p, a, b) && UseRenewed(p, b, c, i) && Moves(p, c, d)
    ensures UseRenewed(p, a, d, i)
  {
    hide RenewsAll, ProblemOk, Rose;
    if i < |p.f.insts| && p.f.insts[i].kind.IsTerminator() && Runs(p, a, i) {
      assert Runs(p, b, i);
      RenewsAround(p, a, b, c, d, p.f.insts[i]);
    }
  }

  lemma {:induction false} ProcessUsesStep(p: Problem<Revision>, s: State<Revision>, us: seq<nat>, n: nat)
    requires OnRevisions(p) && Sized(p, s) && Low(p, s) && n <= |us| && forall i :: i in us ==> i < |p.f.insts|
    ensures Steps(p, s, ProcessUses(p, s, us, n))
    ensures forall k :: 0 <= k < n ==> UseRenewed(p, s, ProcessUses(p, s, us, n), us[k])
  {
    hide OnRevisions, Moves, Sized, Low, ProcessUse, UseRenewed;
    OnOk(p);
    MovesSelf(p, s);
    if n > 0 {
      ProcessUsesStep(p, s, us, n - 1);
      assert us[n - 1] in us;
      var s1 := ProcessUses(p, s, us, n - 1);
      MovesSized(p, s, s1);
      ProcessUseSteps(p, s1, us[n - 1]);
      var s2 := ProcessUse(p, s1, us[n - 1]);
      MovesTrans(p, s, s1, s2);
      MovesSized(p, s1, s2);
      MovesSelf(p, s2);
      forall k | 0 <= k < n ensures UseRenewed(p, s, s2, us[k]) {
        if k < n - 1 {
          UseRenewedAround(p, s, s, s1, s2, us[k]);
        } else {
          UseRenewedAround(p, s, s1, s2, s2, us[k]);
        }
      }
    }
  }

  // -------------------------------------------------------------------- iterations

  /** The state without the entry that is served. */
  function Popped(s: State<Revision>, c: Choice): State<Revision>
    requires Enabled(s, c)
  {
    match c
    case TakeBlock(k) => s.(blockWl := Without(s.blockWl, k))
    case TakeValue(k) => s.(ssaWl := Without(s.ssaWl, k))
  }

  /** Serving a block renews its successors' parameters; serving a value, those of
      every terminator that uses it. */
  ghost predicate Rerun(p: Problem<Revision>, s: State<Revision>, s': State<Revision>, c: Choice)
    requires Enabled(s, c)
  {
    match c
    case TakeBlock(k) => forall i: nat :: i < |p.f.insts| && Placed(p.f, i, s.blockWl[k]) ==> UseRenewed(p, s, s', i)
    case TakeValue(k) => forall i: nat :: i < |p.f.insts| && s.ssaWl[k] in p.f.insts[i].operands ==> UseRenewed(p, s, s', i)
  }

  lemma PoppedIs(p: Problem<Revision>, s: State<Revision>, c: Choice)
    requires Sized(p, s) && Low(p, s) && Enabled(s, c)
    ensures Sized(p, Popped(s, c)) && Low(p, Popped(s, c))
  {
    SameValsLow(p, s, Popped(s, c));
  }

  lemma SameUseRenewed(p: Problem<Revision>, s: State<Revision>, s0: State<Revision>, s': State<Revision>, i: nat)
    requires s0.vals == s.vals && s0.exec == s.exec && UseRenewed(p, s0, s', i)
    ensures UseRenewed(p, s, s', i)
  {
    if i < |p.f.insts| && p.f.insts[i].kind.IsTerminator() && Runs(p, s, i) {
      var t := p.f.insts[i];
      forall si: nat | si < EdgeCount(t.kind) ensures Renewed(p, s, s', Target(t, si), |ParamsOf(p, Target(t, si))|) {
        assert Renewed(p, s0, s', Target(t, si), |ParamsOf(p, Target(t, si))|);
        assert forall v: nat :: Later(p, s0, s', v) ==> Later(p, s, s', v);
      }
    }
  }

  lemma StepSteps(p: Problem<Revision>, s: State<Revision>, c: Choice)
    requires OnRevisions(p) && Sized(p, s) && Low(p, s) && Enabled(s, c)
    ensures Steps(p, Popped(s, c), StepAt(p, s, c)) && Rerun(p, s, StepAt(p, s, c), c)
  {
    match c
    case TakeBlock(k) => BlockSteps(p, s, k);
    case TakeValue(k) => ValueSteps(p, s, k);
  }

  lemma BlockSteps(p: Problem<Revision>, s: State<Revision>, k: nat)
    requires OnRevisions(p) && Sized(p, s) && Low(p, s) && k < |s.blockWl|
    ensures var c := TakeBlock(k); Steps(p, Popped(s, c), StepAt(p, s, c)) && Rerun(p, s, StepAt(p, s, c), c)
  {
    hide Revising, WellFormedFunction, Moves, Low, VisitInsts, VisitTerminator, RenewsAll;
    var b, s0 := s.blockWl[k], Popped(s, TakeBlock(k));
    assert b in s.blockWl;
    PoppedIs(p, s, TakeBlock(k));
    BlockInRange(p, b);
    var list := p.f.blocks[b].insts;
    VisitInstsStep(p, s0, list, |list|);
    var s1 := VisitInsts(p, s0, list, |list|);
    MovesSized(p, s0, s1);
    VisitTerminatorSteps(p, s1, b);
    var s2 := VisitTerminator(p, s1, b);
    MovesTrans(p, s0, s1, s2);
    MovesSized(p, s1, s2);
    MovesSelf(p, s2);
    forall i: nat | i < |p.f.insts| && Placed(p.f, i, b) ensures UseRenewed(p, s, s2, i) {
      if p.f.insts[i].kind.IsTerminator() {
        PlacedAsTerm(p, i, b);
        RenewsAround(p, s0, s1, s2, s2, p.f.insts[i]);
        assert UseRenewed(p, s0, s2, i);
        SameUseRenewed(p, s, s0, s2, i);
      }
    }
  }

  lemma BlockInRange(p: Problem<Revision>, b: nat)
    requires ProblemOk(p) && b < |p.f.blocks|
    ensures forall i :: i in p.f.blocks[b].insts ==> i < |p.f.insts|
  {
    assert WellFormedBlock(p.f, b);
  }

  lemma ValueSteps(p: Problem<Revision>, s: State<Revision>, k: nat)
    requires OnRevisions(p) && Sized(p, s) && Low(p, s) && k < |s.ssaWl|
    ensures var c := TakeValue(k); Steps(p, Popped(s, c), StepAt(p, s, c)) && Rerun(p, s, StepAt(p, s, c), c)
  {
    hide Revising, WellFormedFunction, Moves, Low, ProcessUses, UseRenewed;
    var v, s0 := s.ssaWl[k], Popped(s, TakeValue(k));
    assert v in s.ssaWl;
    PoppedIs(p, s, TakeValue(k));
    UsersFit(p, v);
    var us := Users(p.f.uses[v]);
    ProcessUsesStep(p, s0, us, |us|);
    var s1 := ProcessUses(p, s0, us, |us|);
    forall i: nat | i < |p.f.insts| && v in p.f.insts[i].operands ensures UseRenewed(p, s, s1, i) {
      UsersComplete(p.f, i, v);
      var j :| 0 <= j < |us| && us[j] == i;
      SameUseRenewed(p, s, s0, s1, i);
    }
  }

  // ------------------------------------------------------- when values last changed

  /** The times of the last changes, after iteration `n` took `s` to `s'`. */
  function Stamped(times: seq<nat>, s: State<Revision>, s': State<Revision>, n: nat): (r: seq<nat>)
    requires |times| == |s.vals| == |s'.vals|
    ensures |r| == |times|
    ensures forall v: nat :: v < |r| ==> r[v] == if s'.vals[v] == s.vals[v] then times[v] else n
  {
    seq(|times|, v requires 0 <= v < |times| => if s'.vals[v] == s.vals[v] then times[v] else n)
  }

  /** An operand did not change after the result, or the result is out of date. */
  ghost predicate InstTimed(p: Problem<Revision>, s: State<Revision>, times: seq<nat>, i: nat, v: nat)
    requires i < |p.f.insts| && p.f.insts[i].result.Some?
  {
    var r := p.f.insts[i].result.value;
    v < |times| && r < |times| && times[v] > times[r] ==> Val(p, s, r).Number() < Transferred(p, s, i).Number()
  }

  /** An operand changed before the parameters of the targets, or is to be propagated. */
  ghost predicate TermTimed(p: Problem<Revision>, s: State<Revision>, times: seq<nat>, i: nat, v: nat)
    requires i < |p.f.insts|
  {
    v in s.ssaWl || forall si: nat :: si < EdgeCount(p.f.insts[i].kind) ==> ParamsTimed(p, times, v, Target(p.f.insts[i], si))
  }

  ghost predicate ParamsTimed(p: Problem<Revision>, times: seq<nat>, v: nat, b: nat) {
    !IsHeader(p, b) ==> forall k: nat :: k < |ParamsOf(p, b)| ==> Before(times, v, ParamsOf(p, b)[k])
  }

  ghost predicate Before(times: seq<nat>, v: nat, w: nat) {
    v < |times| && w < |times| ==> times[v] < times[w]
  }

  ghost predicate Timed(p: Problem<Revision>, s: State<Revision>, times: seq<nat>, n: nat) {
    && OnRevisions(p) && Sized(p, s) && Low(p, s) && |times| == |s.vals|
    && (forall v: nat :: v < |times| ==> times[v] <= n)
    && (forall i: nat, v: nat :: i < |p.f.insts| && p.f.insts[i].result.Some? && v in p.f.insts[i].operands ==>
          InstTimed(p, s, times, i, v))
    && (forall i: nat, b: nat, v: nat :: Live(p, s, i, b) && p.f.insts[i].kind.IsTerminator() && v in p.f.insts[i].operands ==>
          TermTimed(p, s, times, i, v))
  }

  /** A changed operand makes a result out of date, unless it was renewed itself. */
  lemma InstStaysTimed(p: Problem<Revision>, s: State<Revision>, s': State<Revision>, times: seq<nat>, n: nat, c: Choice, i: nat, v: nat)
    requires Timed(p, s, times, n) && Enabled(s, c) && Steps(p, Popped(s, c), s')
    requires i < |p.f.insts| && p.f.insts[i].result.Some? && v in p.f.insts[i].operands
    ensures |s.vals| == |s'.vals| && InstTimed(p, s', Stamped(times, s, s', n + 1), i, v)
  {
    hide Transferred, OnRevisions, Rose, Moves, TermTimed;
    var s0 := Popped(s, c);
    OnOk(p);
    ResultDefined(p, i);
    PoppedMoves(p, s, s', c);
    TransferRises(p, s0, s', i);
    SameTransfer(p, s, s0, i);
    assert LowAt(p, s, i) && LowAt(p, s', i) && InstTimed(p, s, times, i, v);
  }

  lemma SameTransfer(p: Problem<Revision>, s: State<Revision>, s0: State<Revision>, i: nat)
    requires s0.vals == s.vals && i < |p.f.insts|
    ensures Transferred(p, s0, i) == Transferred(p, s, i)
  {
    assert Operands(p, s0, p.f.insts[i].operands) == Operands(p, s, p.f.insts[i].operands);
  }

  lemma PoppedMoves(p: Problem<Revision>, s: State<Revision>, s': State<Revision>, c: Choice)
    requires Sized(p, s) && Enabled(s, c) && Moves(p, Popped(s, c), s')
    ensures |s'.vals| == |s.vals|
    ensures forall v: nat :: v < |s.vals| && s'.vals[v] != s.vals[v] ==> v in s'.ssaWl && s.vals[v].Number() < s'.vals[v].Number()
    ensures forall b: nat :: b < |s'.exec| && s'.exec[b] && b !in s'.blockWl ==>
              b < |s.exec| && s.exec[b] && (b !in s.blockWl || (c.TakeBlock? && b == s.blockWl[c.k]))
    ensures forall v: nat :: v in s.ssaWl && v !in s'.ssaWl ==> c.TakeValue? && v == s.ssaWl[c.k]
  {
    forall v: nat | v < |s.vals| && s'.vals[v] != s.vals[v] ensures v in s'.ssaWl && s.vals[v].Number() < s'.vals[v].Number() {
      assert Rose(Popped(s, c), s', v);
    }
  }

  /** An operand that changed is to be propagated; one that was served has renewed
      the parameters. */
  lemma TermStaysTimed(p: Problem<Revision>, s: State<Revision>, s': State<Revision>, times: seq<nat>, n: nat, c: Choice,
                       i: nat, b: nat, v: nat)
    requires Timed(p, s, times, n) && Enabled(s, c) && Moves(p, Popped(s, c), s') && Rerun(p, s, s', c)
    requires Live(p, s', i, b) && p.f.insts[i].kind.IsTerminator() && v in p.f.insts[i].operands
    ensures |s.vals| == |s'.vals| && TermTimed(p, s', Stamped(times, s, s', n + 1), i, v)
  {
    hide Moves, InstTimed, Low, RenewsAll, ParamsTimed, Revising, WellFormedFunction, Popped;
    PoppedMoves(p, s, s', c);
    UsersComplete(p.f, i, v);
    assert Placed(p.f, i, b);
    if v !in s'.ssaWl {
      if UseRenewed(p, s, s', i) && Runs(p, s, i) {
        RenewedTimed(p, s, s', times, n, i, v);
      } else {
        assert Live(p, s, i, b) && TermTimed(p, s, times, i, v);
        ParamsStayTimed(p, s, s', times, n, i, v);
      }
    }
  }

  lemma RenewedTimed(p: Problem<Revision>, s: State<Revision>, s': State<Revision>, times: seq<nat>, n: nat, i: nat, v: nat)
    requires |times| == |s.vals| == |s'.vals| && forall w: nat :: w < |times| ==> times[w] <= n
    requires i < |p.f.insts| && v < |times| && s'.vals[v] == s.vals[v] && RenewsAll(p, s, s', p.f.insts[i])
    ensures TermTimed(p, s', Stamped(times, s, s', n + 1), i, v)
  {
    hide Target, EdgeCount, ParamsOf, IsHeader;
    var t := p.f.insts[i];
    forall si: nat | si < EdgeCount(t.kind) ensures ParamsTimed(p, Stamped(times, s, s', n + 1), v, Target(t, si)) {
      var c := Target(t, si);
      assert Renewed(p, s, s', c, |ParamsOf(p, c)|);
      if !IsHeader(p, c) {
        forall k: nat | k < |ParamsOf(p, c)| ensures Before(Stamped(times, s, s', n + 1), v, ParamsOf(p, c)[k]) {
          assert Later(p, s, s', ParamsOf(p, c)[k]);
        }
      }
    }
  }

  lemma ParamsStayTimed(p: Problem<Revision>, s: State<Revision>, s': State<Revision>, times: seq<nat>, n: nat, i: nat, v: nat)
    requires |times| == |s.vals| == |s'.vals| && forall w: nat :: w < |times| ==> times[w] <= n
    requires i < |p.f.insts| && v < |times| && s'.vals[v] == s.vals[v]
    requires v !in s.ssaWl && TermTimed(p, s, times, i, v)
    ensures TermTimed(p, s', Stamped(times, s, s', n + 1), i, v)
  {
    hide Target, EdgeCount, ParamsOf, IsHeader;
    var t := p.f.insts[i];
    forall si: nat | si < EdgeCount(t.kind) ensures ParamsTimed(p, Stamped(times, s, s', n + 1), v, Target(t, si)) {
      var c := Target(t, si);
      assert ParamsTimed(p, times, v, c);
      if !IsHeader(p, c) {
        forall k: nat | k < |ParamsOf(p, c)| ensures Before(Stamped(times, s, s', n + 1), v, ParamsOf(p, c)[k]) {
          assert Before(times, v, ParamsOf(p, c)[k]);
        }
      }
    }
  }

  lemma StepTimed(p: Problem<Revision>, s: State<Revision>, times: seq<nat>, n: nat, c: Choice)
    requires Timed(p, s, times, n) && Enabled(s, c)
    ensures |StepAt(p, s, c).vals| == |s.vals|
    ensures Timed(p, StepAt(p, s, c), Stamped(times, s, StepAt(p, s, c), n + 1), n + 1)
  {
    hide Revising, WellFormedFunction, Moves, Low, StepAt, Rerun, InstTimed, TermTimed, Popped;
    StepSteps(p, s, c);
    var s' := StepAt(p, s, c);
    PoppedMoves(p, s, s', c);
    MovesSized(p, Popped(s, c), s');
    forall i: nat, v: nat | i < |p.f.insts| && p.f.insts[i].result.Some? && v in p.f.insts[i].operands
      ensures InstTimed(p, s', Stamped(times, s, s', n + 1), i, v)
    {
      InstStaysTimed(p, s, s', times, n, c, i, v);
    }
    forall i: nat, b: nat, v: nat | Live(p, s', i, b) && p.f.insts[i].kind.IsTerminator() && v in p.f.insts[i].operands
      ensures TermTimed(p, s', Stamped(times, s, s', n + 1), i, v)
    {
      TermStaysTimed(p, s, s', times, n, c, i, b, v);
    }
  }

  lemma StartTimed(p: Problem<Revision>)
    requires OnRevisions(p)
    ensures Timed(p, Start(p), seq(|p.f.values|, _ => 0), 0)
  {
    hide Revising, WellFormedFunction, Transferred;
    StartLow(p);
    var s, times := Start(p), seq(|p.f.values|, _ => 0);
    forall v: nat | v < |times| ensures times[v] == 0 { }
  }

  lemma StartLow(p: Problem<Revision>)
    requires OnRevisions(p)
    ensures Sized(p, Start(p)) && Low(p, Start(p))
  {
    hide WellFormedFunction, Transferred;
    forall i: nat | i < |p.f.insts| && p.f.insts[i].result.Some? ensures LowAt(p, Start(p), i) { ResultDefined(p, i); }
  }

  lemma {:induction false} RunTimed(p: Problem<Revision>, choices: seq<Choice>) returns (times: seq<nat>)
    requires OnRevisions(p) && RunChoices(p, choices).Some?
    ensures Timed(p, RunChoices(p, choices).value, times, |choices|)
  {
    hide Revising, WellFormedFunction, StepAt, Low;
    if choices == [] {
      StartTimed(p);
      times := seq(|p.f.values|, _ => 0);
    } else {
      var m := |choices| - 1;
      var before := RunChoices(p, choices[..m]).value;
      var earlier := RunTimed(p, choices[..m]);
      StepTimed(p, before, earlier, m, choices[m]);
      times := Stamped(earlier, before, StepAt(p, before, choices[m]), m + 1);
    }
  }

  // ------------------------------------------------------- a run that stops has an order

  /** Every edge is feasible, so the run has reached whatever the edges reach. */
  lemma {:induction false} StoppedReaches(p: Problem<Revision>, s: State<Revision>, path: seq<nat>)
    requires OnRevisions(p) && IsSolution(p, s) && IsPath(GraphOf(p.f), path) && path[0] == p.f.entry.value
    ensures path[|path| - 1] < |s.exec| && s.exec[path[|path| - 1]]
    decreases |path|
  {
    hide IsSolution, OnRevisions, GraphOf;
    var m := |path| - 1;
    OnOk(p);
    SolutionEntry(p, s);
    if m > 0 {
      PathPrefix(GraphOf(p.f), path, m - 1);
      StoppedReaches(p, s, path[..m]);
      assert Edge(GraphOf(p.f), path[m - 1], path[m - 1 + 1]);
      EdgeTaken(p, s, path[m - 1], path[m]);
    }
  }

  lemma SolutionEntry(p: Problem<Revision>, s: State<Revision>)
    requires IsSolution(p, s)
    ensures ProblemOk(p) && |s.exec| == |p.f.blocks| && p.f.entry.value < |s.exec| && s.exec[p.f.entry.value]
  { }

  lemma EdgeTaken(p: Problem<Revision>, s: State<Revision>, a: nat, b: nat)
    requires OnRevisions(p) && IsSolution(p, s) && a < |s.exec| && s.exec[a] && b in SuccessorsOf(p.f, a)
    ensures b < |s.exec| && s.exec[b]
  {
    hide Revising, WellFormedFunction, Feasible, ParamsAbove;
    TermAt(p, a);
    var i := p.f.blocks[a].term.value;
    var t := p.f.insts[i];
    assert Placed(p.f, i, a);
    assert Absorbed(p, s, i, a);
    var si :| 0 <= si < |Successors(t.kind)| && Successors(t.kind)[si] == b;
    AllFeasible(p, s, i, si);
    assert EdgeOk(p, s, a, t, si);
  }

  /** The order in which the values last changed, those of one iteration by number. */
  function LastChanges(s: State<Revision>, times: seq<nat>): (r: seq<nat>)
    requires |times| == |s.vals|
    ensures |r| == |times|
    ensures forall v: nat :: v < |r| ==> r[v] == Moment(times[v], 1 + Total(s.vals), s.vals[v].Number())
  {
    seq(|times|, v requires 0 <= v < |times| => Moment(times[v], 1 + Total(s.vals), s.vals[v].Number()))
  }

  function Moment(time: nat, width: nat, n: nat): nat {
    time * width + n
  }

  lemma ChangedLater(s: State<Revision>, times: seq<nat>, v: nat, w: nat)
    requires |times| == |s.vals| && v < |times| && w < |times|
    requires times[v] < times[w] || (times[v] == times[w] && s.vals[v].Number() < s.vals[w].Number())
    ensures After(LastChanges(s, times), v, w)
  {
    TotalCovers(s.vals, v);
    if times[v] < times[w] { FurtherBlock(times[v], times[w], 1 + Total(s.vals), s.vals[v].Number()); }
  }

  /** Once nothing is left to do, a result comes after its operands. */
  lemma StoppedInst(p: Problem<Revision>, s: State<Revision>, times: seq<nat>, n: nat, i: nat, b: nat, v: nat)
    requires Timed(p, s, times, n) && Inv(p, s, {}) && Stopped(s) && Live(p, s, i, b)
    requires p.f.insts[i].result.Some? && v in p.f.insts[i].operands && v < |times|
    ensures p.f.insts[i].result.value < |times| && After(LastChanges(s, times), v, p.f.insts[i].result.value)
  {
    hide Revising, WellFormedFunction, Low, TermTimed, LastChanges, After, Transferred;
    ResultDefined(p, i);
    assert Covered(p, s, i, b) && InstTimed(p, s, times, i, v);
    OperandBelow(p, s, i, v);
    ChangedLater(s, times, v, p.f.insts[i].result.value);
  }

  lemma OperandBelow(p: Problem<Revision>, s: State<Revision>, i: nat, v: nat)
    requires OnRevisions(p) && i < |p.f.insts| && v in p.f.insts[i].operands && v < |s.vals|
    ensures s.vals[v].Number() < Transferred(p, s, i).Number()
  {
    hide Revising, ProblemOk, Transferred;
    var vs := p.f.insts[i].operands;
    var k :| 0 <= k < |vs| && vs[k] == v;
    TransferredCounts(p, s, i);
    TotalCovers(Operands(p, s, vs), k);
  }

  /** And the parameters of a terminator's targets come after its operands. */
  lemma StoppedTerm(p: Problem<Revision>, s: State<Revision>, times: seq<nat>, n: nat, i: nat, b: nat, v: nat)
    requires Timed(p, s, times, n) && Stopped(s) && Live(p, s, i, b) && p.f.insts[i].kind.IsTerminator()
    requires v in p.f.insts[i].operands && v < |times|
    ensures UseForward(p, LastChanges(s, times), v, i)
  {
    hide Revising, WellFormedFunction, Low, InstTimed, LastChanges, After, Target, EdgeCount, ParamsOf, IsHeader;
    assert TermTimed(p, s, times, i, v);
    var t, ord := p.f.insts[i], LastChanges(s, times);
    forall si: nat, k: nat | si < EdgeCount(t.kind) && k < |ParamsOf(p, Target(t, si))|
      ensures ParamForward(p, ord, v, Target(t, si), k)
    {
      var c := Target(t, si);
      assert ParamsTimed(p, times, v, c);
      if !IsHeader(p, c) {
        assert Before(times, v, ParamsOf(p, c)[k]);
        ParamIsOwn(p, c, k);
        ChangedLater(s, times, v, ParamsOf(p, c)[k]);
      }
    }
  }

  lemma LiveRuns(p: Problem<Revision>, s: State<Revision>, live: seq<bool>, i: nat)
    requires OnRevisions(p) && LiveExact(p, live) && IsSolution(p, s) && Stopped(s) && MayRun(p, Plan([], live), i)
    ensures i < |p.f.insts| && i < |p.instBlock| && p.instBlock[i].Some? && Live(p, s, i, p.instBlock[i].value)
  {
    hide Revising, WellFormedFunction, PathFromTo;
    var b := p.instBlock[i].value;
    assert live[b];
    var path :| PathFromTo(GraphOf(p.f), path, p.f.entry.value, b);
    PathParts(GraphOf(p.f), path, p.f.entry.value, b);
    StoppedReaches(p, s, path);
  }

  lemma PathParts(g: Graph, path: seq<nat>, a: nat, b: nat)
    requires PathFromTo(g, path, a, b)
    ensures IsPath(g, path) && path[0] == a && path[|path| - 1] == b
  { }

  /** A run that stops leaves such an order behind. */
  lemma StoppedHasOrder(p: Problem<Revision>, live: seq<bool>, choices: seq<Choice>)
    requires OnRevisions(p) && LiveExact(p, live)
    requires RunChoices(p, choices).Some? && Stopped(RunChoices(p, choices).value)
    ensures HasOrder(p, live)
  {
    hide OnRevisions, LiveExact, Timed, Inv, IsSolution, UseForward, MayRun, Live, UpperBounds, LastChanges;
    OnOk(p);
    var s := RunChoices(p, choices).value;
    var times := RunTimed(p, choices);
    RevisingLaws();
    RunKeepsInv(p, choices);
    StoppedIsSolution(p, s);
    TimedParts(p, s, times, |choices|);
    var ord := LastChanges(s, times);
    forall v: nat, i: nat | v < |ord| && i < |p.f.insts| && i in Users(p.f.uses[v]) && MayRun(p, Plan([], live), i)
      ensures UseForward(p, ord, v, i)
    {
      LiveRuns(p, s, live, i);
      OneStoppedUse(p, s, times, |choices|, v, i);
    }
    assert Forward(p, live, ord);
  }

  lemma OneStoppedUse(p: Problem<Revision>, s: State<Revision>, times: seq<nat>, n: nat, v: nat, i: nat)
    requires Timed(p, s, times, n) && Inv(p, s, {}) && Stopped(s) && i < |p.f.insts| && i < |p.instBlock| && p.instBlock[i].Some?
    requires Live(p, s, i, p.instBlock[i].value) && v < |times| && v < |p.f.uses| && i in Users(p.f.uses[v])
    ensures UseForward(p, LastChanges(s, times), v, i)
  {
    hide Inv, Timed, Live, LastChanges;
    TimedParts(p, s, times, n);
    UseIsOperand(p, v, i);
    if p.f.insts[i].kind.IsTerminator() {
      StoppedTerm(p, s, times, n, i, p.instBlock[i].value, v);
    } else if p.f.insts[i].result.Some? {
      StoppedInst(p, s, times, n, i, p.instBlock[i].value, v);
    }
  }

  lemma TimedParts(p: Problem<Revision>, s: State<Revision>, times: seq<nat>, n: nat)
    requires Timed(p, s, times, n)
    ensures OnRevisions(p) && |p.f.uses| == |p.f.values| == |s.vals| == |times|
  { }

  // ------------------------------------------------------------------ the exact condition

  /** The same function, headers and places, with revisions for values. */
  ghost function OnSameFunction<D>(p: Problem<D>): (q: Problem<Revision>)
    ensures q.f == p.f && q.header == p.header && q.instBlock == p.instBlock
  {
    Problem(p.f, Revising(), p.header, p.instBlock)
  }

  lemma SameOrders<D>(p: Problem<D>, live: seq<bool>)
    ensures ProblemOk(p) <==> ProblemOk(OnSameFunction(p))
    ensures LiveExact(p, live) <==> LiveExact(OnSameFunction(p), live)
    ensures HasOrder(p, live) <==> HasOrder(OnSameFunction(p), live)
  {
    var q := OnSameFunction(p);
    forall ord: seq<nat> ensures Forward(p, live, ord) <==> Forward(q, live, ord) { SameForward(p, live, ord); }
  }

  lemma SameForward<D>(p: Problem<D>, live: seq<bool>, ord: seq<nat>)
    ensures Forward(p, live, ord) <==> Forward(OnSameFunction(p), live, ord)
  {
    var q := OnSameFunction(p);
    forall v: nat, i: nat | v < |ord| && i < |p.f.insts| ensures UseForward(p, ord, v, i) <==> UseForward(q, ord, v, i) {
      var t := p.f.insts[i];
      forall si: nat, k: nat | si < EdgeCount(t.kind) && k < |ParamsOf(p, Target(t, si))|
        ensures ParamForward(p, ord, v, Target(t, si), k) <==> ParamForward(q, ord, v, Target(t, si), k)
      { }
    }
  }

  /** Without such an order there is a domain, on the same function and with the same
      headers, whose joins are upper bounds, whose transfers are monotone and whose
      widening stops, on which no run in any order ever stops. */
  lemma OrderIsNeeded<D>(p: Problem<D>, live: seq<bool>)
    requires ProblemOk(p) && LiveExact(p, live) && !HasOrder(p, live)
    ensures var q := OnSameFunction(p);
            && ProblemOk(q) && UpperBounds(q.dom) && MonotoneTransfer(q.dom) && WideningStops(q.dom, Rank)
            && !CanStop(q) && forall n: nat :: RunsFor(q, n)
  {
    hide ProblemOk, LiveExact, HasOrder, UpperBounds, MonotoneTransfer, WideningStops, CanStop, RunsFor, Revising;
    var q := OnSameFunction(p);
    RevisingLaws();
    SameOrders(p, live);
    if CanStop(q) { StopGivesOrder(q, live); }
    forall n: nat ensures RunsFor(q, n) { RunsForEver(q, n); }
  }

  lemma StopGivesOrder(p: Problem<Revision>, live: seq<bool>)
    requires OnRevisions(p) && LiveExact(p, live) && CanStop(p)
    ensures HasOrder(p, live)
  {
    hide HasOrder, LiveExact, Revising, WellFormedFunction;
    var choices: seq<Choice> :| RunChoices(p, choices).Some? && Stopped(RunChoices(p, choices).value);
    StoppedHasOrder(p, live, choices);
  }

  /** So the exact condition is that no value feeds itself but through a header: it holds
      if and only if the runs on revisions are bounded, and if and only if one of them
      stops; and with it the runs on every domain with a widening that stops are. */
  lemma StopsIffNoCycle<D(!new)>(p: Problem<D>, live: seq<bool>)
    requires ProblemOk(p) && LiveExact(p, live)
    ensures ProblemOk(OnSameFunction(p)) && UpperBounds(OnSameFunction(p).dom) && WideningStops(OnSameFunction(p).dom, Rank)
    ensures NoCycle(p, live) <==> exists bound: nat :: RunBounded(OnSameFunction(p), bound)
    ensures NoCycle(p, live) <==> CanStop(OnSameFunction(p))
    ensures NoCycle(p, live) ==>
              forall rank: D -> nat :: WideningStops(p.dom, rank) ==> exists bound: nat :: RunBounded(p, bound)
  {
    hide ProblemOk, LiveExact, HasOrder, NoCycle, UpperBounds, MonotoneTransfer, WideningStops, CanStop, RunsFor, Revising;
    var q := OnSameFunction(p);
    RevisingLaws();
    SameOrders(p, live);
    OrderIffNoCycle(p, live);
    if HasOrder(p, live) {
      BoundedByOrder(q, live, Rank);
      forall rank: D -> nat | WideningStops(p.dom, rank) ensures exists bound: nat :: RunBounded(p, bound) {
        BoundedByOrder(p, live, rank);
      }
      BoundedStops(q);
    } else {
      OrderIsNeeded(p, live);
      forall bound: nat ensures !RunBounded(q, bound) { LongRun(q, bound); }
    }
  }

  lemma BoundedByOrder<D(!new)>(p: Problem<D>, live: seq<bool>, rank: D -> nat)
    requires ProblemOk(p) && LiveExact(p, live) && HasOrder(p, live) && WideningStops(p.dom, rank)
    ensures exists bound: nat :: RunBounded(p, bound)
  {
    hide ProblemOk, LiveExact, HasOrder, WideningStops;
    var bound := OrderIsEnough(p, live, rank);
    assert RunBounded(p, bound);
  }
}
