/** Why a value is secret: the steps back toward a source, the breadth-first depth
    that orders them, and the chain they make. */
module SecretOrigins {
  import opened Wrappers
  import opened Paths
  import opened Distances
  import opened Ir
  import opened SolverSteps
  import opened SolverSound
  import opened SolverLeast
  import opened Secret

  datatype Origin =
    | SecretParam(index: nat)
    | SecretLoad(inst: nat)
    | SecretMemory(inst: nat, root: MemRoot)
    | Operand(inst: nat, from: nat)
    | BlockArg(block: nat, from: nat)
  {
    predicate IsStep() { Operand? || BlockArg? }
  }

  /** What explanations are read off: a function with its finished taint. */
  datatype Facts = Facts(f: Function, secretParams: seq<bool>, roots: seq<Option<MemRoot>>, vals: seq<Taint>)

  ghost predicate FactsOk(a: Facts) {
    WellFormedFunction(a.f) && |a.vals| == |a.f.values|
  }

  /** The immediate reasons: a source, or the secret values it comes from. */
  datatype Reasons = Reasons(source: Option<Origin>, from: seq<Origin>)

  /** The secret ones of the first `n` operands of instruction `i`. */
  function OperandReasons(a: Facts, i: nat, ops: seq<nat>, n: nat): (r: seq<Origin>)
    requires n <= |ops|
    ensures forall o :: o in r <==> o.Operand? && o.inst == i && o.from in ops[..n] && IsSecret(a.vals, o.from)
  {
    if n == 0 then []
    else
      assert ops[..n] == ops[..n - 1] + [ops[n - 1]];
      OperandReasons(a, i, ops, n - 1) + if IsSecret(a.vals, ops[n - 1]) then [Operand(i, ops[n - 1])] else []
  }

  /** Edge `si` of `t` passes the secret `arg` for parameter `index` of block `b`. */
  predicate PassesSecret(a: Facts, t: Inst, si: nat, b: nat, index: nat, arg: nat) {
    && si < EdgeCount(t.kind) && OperandsFit(t) && Target(t, si) == b
    && index < |EdgeArgs(t, si)| && EdgeArgs(t, si)[index] == arg && IsSecret(a.vals, arg)
  }

  /** The secret arguments the first `n` edges of `t` pass. */
  function EdgeReasons(a: Facts, t: Inst, b: nat, index: nat, n: nat): (r: seq<Origin>)
    requires OperandsFit(t) && n <= EdgeCount(t.kind)
    ensures forall o :: o in r ==> o.BlockArg? && o.block == b && IsSecret(a.vals, o.from)
  {
    if n == 0 then []
    else
      var args := EdgeArgs(t, n - 1);
      EdgeReasons(a, t, b, index, n - 1)
      + if Target(t, n - 1) == b && index < |args| && IsSecret(a.vals, args[index]) then [BlockArg(b, args[index])] else []
  }

  /** Those of the first `n` blocks. */
  function BlockReasons(a: Facts, b: nat, index: nat, n: nat): (r: seq<Origin>)
    requires n <= |a.f.blocks|
    ensures forall o :: o in r ==> o.BlockArg? && o.block == b && IsSecret(a.vals, o.from)
  {
    if n == 0 then []
    else
      BlockReasons(a, b, index, n - 1)
      + match a.f.blocks[n - 1].term
        case None => []
        case Some(i) =>
          if i < |a.f.insts| && OperandsFit(a.f.insts[i])
          then EdgeReasons(a, a.f.insts[i], b, index, EdgeCount(a.f.insts[i].kind)) else []
  }

  lemma {:induction false} EdgeReasonFound(a: Facts, t: Inst, si: nat, b: nat, index: nat, arg: nat, n: nat)
    requires OperandsFit(t) && si < n <= EdgeCount(t.kind) && PassesSecret(a, t, si, b, index, arg)
    ensures BlockArg(b, arg) in EdgeReasons(a, t, b, index, n)
    decreases n
  {
    hide EdgeArgs, Target, EdgeCount, OperandsFit, IsSecret;
    if si < n - 1 { EdgeReasonFound(a, t, si, b, index, arg, n - 1); }
  }

  lemma {:induction false} BlockReasonFound(a: Facts, q: nat, i: nat, si: nat, b: nat, index: nat, arg: nat, n: nat)
    requires q < n <= |a.f.blocks| && a.f.blocks[q].term == Some(i) && i < |a.f.insts|
    requires PassesSecret(a, a.f.insts[i], si, b, index, arg)
    ensures BlockArg(b, arg) in BlockReasons(a, b, index, n)
    decreases n
  {
    hide PassesSecret, EdgeReasons;
    if q < n - 1 {
      BlockReasonFound(a, q, i, si, b, index, arg, n - 1);
    } else {
      PassesEdge(a, a.f.insts[i], si, b, index, arg);
      EdgeReasonFound(a, a.f.insts[i], si, b, index, arg, EdgeCount(a.f.insts[i].kind));
    }
  }

  lemma PassesEdge(a: Facts, t: Inst, si: nat, b: nat, index: nat, arg: nat)
    requires PassesSecret(a, t, si, b, index, arg)
    ensures OperandsFit(t) && si < EdgeCount(t.kind)
  { }

  function ReasonsFor(a: Facts, v: nat): (r: Reasons)
    requires FactsOk(a) && v < |a.vals|
    ensures r.source.Some? ==> !r.source.value.IsStep()
    ensures forall o :: o in r.from ==> o.IsStep() && IsSecret(a.vals, o.from)
    ensures r.source.Some? || r.from != [] ==> IsSecret(a.vals, v)
  {
    if !IsSecret(a.vals, v) then Reasons(None, [])
    else
      match a.f.values[v]
      case Param(b, index) =>
        if a.f.entry == Some(b) then
          Reasons(if index < |a.secretParams| && a.secretParams[index] then Some(SecretParam(index)) else None, [])
        else Reasons(None, BlockReasons(a, b, index, |a.f.blocks|))
      case FromInst(i) =>
        if i >= |a.f.insts| then Reasons(None, [])
        else
          var ops := a.f.insts[i].operands;
          (match a.f.insts[i].kind
           case Load(secret) =>
             Reasons(Some(if secret then SecretLoad(i) else SecretMemory(i, if ops == [] then Unknown else RootOf(a.roots, ops[0]))), [])
           case _ => Reasons(None, OperandReasons(a, i, ops, |ops|)))
      case _ => Reasons(None, [])
  }

  // ------------------------------------------------------- what the reasons are

  /** `v` is secret, and `o` is a source of it or a secret value that it comes from: a
      secret parameter of the entry, a load, an operand of any other instruction, or an
      argument that an edge passes for a block's parameter. */
  ghost predicate IsReason(a: Facts, v: nat, o: Origin)
    requires v < |a.f.values|
  {
    && IsSecret(a.vals, v)
    && match o
       case SecretParam(index) =>
         index < |a.secretParams| && a.secretParams[index] && exists b: nat :: a.f.values[v] == Param(b, index) && a.f.entry == Some(b)
       case SecretLoad(i) => a.f.values[v] == FromInst(i) && i < |a.f.insts| && a.f.insts[i].kind == Load(true)
       case SecretMemory(i, root) =>
         && a.f.values[v] == FromInst(i) && i < |a.f.insts| && a.f.insts[i].kind == Load(false)
         && var ops := a.f.insts[i].operands;
            root == if ops != [] && ops[0] < |a.roots| && a.roots[ops[0]].Some? then a.roots[ops[0]].value else Unknown
       case Operand(i, w) =>
         && a.f.values[v] == FromInst(i) && i < |a.f.insts| && !a.f.insts[i].kind.Load?
         && w in a.f.insts[i].operands && IsSecret(a.vals, w)
       case BlockArg(b, w) =>
         && a.f.entry != Some(b) && IsSecret(a.vals, w)
         && exists q: nat, si: nat, index: nat :: a.f.values[v] == Param(b, index) && PassesArg(a.f, q, si, b, index, w)
  }

  lemma {:induction false} EdgeReasonPasses(a: Facts, t: Inst, b: nat, index: nat, n: nat, o: Origin)
    requires OperandsFit(t) && n <= EdgeCount(t.kind) && o in EdgeReasons(a, t, b, index, n)
    ensures o.BlockArg? && o.block == b && exists si: nat :: PassesSecret(a, t, si, b, index, o.from)
  {
    hide EdgeArgs, Target, EdgeCount, OperandsFit, IsSecret;
    if o in EdgeReasons(a, t, b, index, n - 1) {
      EdgeReasonPasses(a, t, b, index, n - 1, o);
    } else {
      assert PassesSecret(a, t, n - 1, b, index, o.from);
    }
  }

  lemma {:induction false} BlockReasonPasses(a: Facts, b: nat, index: nat, n: nat, o: Origin)
    requires n <= |a.f.blocks| && o in BlockReasons(a, b, index, n)
    ensures o.BlockArg? && o.block == b && IsSecret(a.vals, o.from) && exists q: nat, si: nat :: PassesArg(a.f, q, si, b, index, o.from)
  {
    hide EdgeReasons, PassesSecret, PassesArg, OperandsFit, IsSecret;
    if o in BlockReasons(a, b, index, n - 1) {
      BlockReasonPasses(a, b, index, n - 1, o);
    } else {
      var t := a.f.insts[a.f.blocks[n - 1].term.value];
      EdgeReasonPasses(a, t, b, index, EdgeCount(t.kind), o);
      var si: nat :| PassesSecret(a, t, si, b, index, o.from);
      PassesMeans(a, n - 1, si, b, index, o.from);
    }
  }

  lemma PassesMeans(a: Facts, q: nat, si: nat, b: nat, index: nat, w: nat)
    requires q < |a.f.blocks| && a.f.blocks[q].term.Some? && a.f.blocks[q].term.value < |a.f.insts|
    requires OperandsFit(a.f.insts[a.f.blocks[q].term.value])
    ensures PassesSecret(a, a.f.insts[a.f.blocks[q].term.value], si, b, index, w) <==> PassesArg(a.f, q, si, b, index, w) && IsSecret(a.vals, w)
  {
    hide OperandsFit, EdgeArgs, EdgeCount, HasEdge, EdgeTo, ArgFrom, ArgNum, Successors;
    EdgesMean(a.f.insts[a.f.blocks[q].term.value], si);
  }

  lemma PassedIsReason(a: Facts, q: nat, si: nat, b: nat, index: nat, w: nat)
    requires FactsOk(a) && PassesArg(a.f, q, si, b, index, w) && IsSecret(a.vals, w)
    ensures BlockArg(b, w) in BlockReasons(a, b, index, |a.f.blocks|)
  {
    hide PassesSecret, BlockReasons, IsSecret;
    TermFits(a, q);
    PassesMeans(a, q, si, b, index, w);
    BlockReasonFound(a, q, a.f.blocks[q].term.value, si, b, index, w, |a.f.blocks|);
  }

  lemma TermFits(a: Facts, q: nat)
    requires FactsOk(a) && q < |a.f.blocks| && a.f.blocks[q].term.Some? && a.f.blocks[q].term.value < |a.f.insts|
    ensures OperandsFit(a.f.insts[a.f.blocks[q].term.value])
  {
    assert WellFormedInst(a.f, a.f.blocks[q].term.value);
  }

  /** The reasons found are exactly these. */
  lemma ReasonsAre(a: Facts, v: nat, o: Origin)
    requires FactsOk(a) && v < |a.vals|
    ensures o in ReasonsFor(a, v).from || ReasonsFor(a, v).source == Some(o) <==> IsReason(a, v, o)
  {
    hide WellFormedFunction, BlockReasons, PassesArg;
    match a.f.values[v]
    case Param(b, index) =>
      if o in BlockReasons(a, b, index, |a.f.blocks|) { BlockReasonPasses(a, b, index, |a.f.blocks|, o); }
      if o.BlockArg? && IsReason(a, v, o) {
        var q: nat, si: nat :| PassesArg(a.f, q, si, b, index, o.from);
        PassedIsReason(a, q, si, b, index, o.from);
      }
    case FromInst(i) => if i < |a.f.insts| { assert a.f.insts[i].operands[..|a.f.insts[i].operands|] == a.f.insts[i].operands; }
    case _ =>
  }

  /** The values the reasons for `v` come from. */
  function FromsOf(a: Facts, v: nat): (r: seq<nat>)
    requires FactsOk(a) && v < |a.vals|
    ensures var from := ReasonsFor(a, v).from; |r| == |from| && forall k :: 0 <= k < |r| ==> r[k] == from[k].from
    ensures forall k :: 0 <= k < |r| ==> r[k] < |a.vals|
  {
    var from := ReasonsFor(a, v).from;
    seq(|from|, k requires 0 <= k < |from| => assert from[k] in from; from[k].from)
  }

  /** The steps back as a graph on the values. */
  ghost function Back(a: Facts): (g: Graph)
    requires FactsOk(a)
    ensures |g| == |a.vals| && forall v: nat :: v < |g| ==> g[v] == FromsOf(a, v)
  {
    seq(|a.vals|, v requires 0 <= v < |a.vals| => FromsOf(a, v))
  }

  ghost function Sources(a: Facts): (r: set<nat>)
    requires FactsOk(a)
    ensures forall v: nat :: v in r <==> v < |a.vals| && ReasonsFor(a, v).source.Some?
  {
    set v: nat | v < |a.vals| && ReasonsFor(a, v).source.Some?
  }

  // --------------------------------------------------------------------- depth

  /** `d` steps lead from `v` back to a source, and no fewer. */
  ghost predicate DepthIs(a: Facts, v: nat, d: nat)
    requires FactsOk(a)
  {
    IsDepth(Back(a), Sources(a), v, d)
  }

  ghost predicate Unexplained(a: Facts, v: nat)
    requires FactsOk(a)
  {
    Sourceless(Back(a), Sources(a), v)
  }

  lemma StepIsEdge(a: Facts, v: nat, o: Origin)
    requires FactsOk(a) && v < |a.vals| && o in ReasonsFor(a, v).from
    ensures Edge(Back(a), v, o.from) && o.from < |a.vals|
  {
    hide FactsOk, ReasonsFor;
    var k :| 0 <= k < |ReasonsFor(a, v).from| && ReasonsFor(a, v).from[k] == o;
    assert Back(a)[v][k] == o.from;
  }

  lemma EdgeIsStep(a: Facts, v: nat, w: nat) returns (o: Origin)
    requires FactsOk(a) && v < |a.vals| && Edge(Back(a), v, w)
    ensures o in ReasonsFor(a, v).from && o.from == w
  {
    hide FactsOk, ReasonsFor;
    var k :| 0 <= k < |Back(a)[v]| && Back(a)[v][k] == w;
    o := ReasonsFor(a, v).from[k];
  }

  lemma EdgesInSeen(a: Facts, x: nat, seen: set<nat>)
    requires FactsOk(a) && x < |a.vals|
    requires var from := ReasonsFor(a, x).from; forall k :: 0 <= k < |from| ==> from[k].from in seen
    ensures forall w :: Edge(Back(a), x, w) ==> w in seen
  {
    hide FactsOk, ReasonsFor;
    forall w | Edge(Back(a), x, w) ensures w in seen {
      var o := EdgeIsStep(a, x, w);
    }
  }

  ghost function SeenSet(seen: seq<bool>): set<nat> {
    set w: nat | w < |seen| && seen[w]
  }

  /** Search backwards from `v` layer by layer, until one holds a source or none is
      left. */
  method Depth(a: Facts, v: nat) returns (r: Option<nat>)
    requires FactsOk(a) && v < |a.vals|
    ensures r.Some? ==> DepthIs(a, v, r.value)
    ensures r.None? ==> Unexplained(a, v)
  {
    hide FactsOk, ReasonsFor, Searched, IsDepth, Sourceless, NoSource, OneStep;
    ghost var g, src := Back(a), Sources(a);
    var seen := seq(|a.vals|, _ => false)[v := true];
    var frontier, d := [v], 0;
    assert SeenSet(seen) == {v} && Elems(frontier) == {v};
    StartSearched(g, src, v);
    while frontier != []
      invariant |seen| == |a.vals| && SeenSet(seen) == Ball(g, v, d) && Elems(frontier) <= Ball(g, v, d)
      invariant Searched(g, src, Ball(g, v, d) - Elems(frontier), Ball(g, v, d))
      invariant d > 0 ==> NoSource(g, src, v, d - 1)
      decreases Unseen(seen), |frontier|
    {
      var next: seq<nat> := [];
      ghost var ball, seen0, done := Ball(g, v, d), seen, {};
      NothingSearched(g, src, ball);
      for k := 0 to |frontier|
        invariant |seen| == |a.vals| && SeenSet(seen) == ball + Elems(next) && Elems(next) <= OneStep(g, ball)
        invariant done == Elems(frontier[..k]) && Searched(g, src, done, SeenSet(seen))
        invariant if next == [] then seen == seen0 else Unseen(seen) < Unseen(seen0)
      {
        var x := frontier[k];
        assert x in Elems(frontier) && x in SeenSet(seen);
        var reasons := ReasonsFor(a, x);
        if reasons.source.Some? {
          FoundAt(g, src, v, d, x);
          return Some(d);
        }
        ghost var before := SeenSet(seen);
        seen, next := SeeAll(a, x, seen, next);
        BackInStep(a, ball, x);
        SearchedMore(g, src, done, before, x, SeenSet(seen));
        done := done + {x};
        assert frontier[..k + 1] == frontier[..k] + [x];
        ElemsAdds(frontier[..k], x);
      }
      assert frontier[..|frontier|] == frontier;
      LayerDone(g, src, v, d, Elems(frontier), Elems(next), SeenSet(seen));
      frontier, d := next, d + 1;
    }
    assert Ball(g, v, d) - Elems(frontier) == Ball(g, v, d);
    NothingFound(g, src, v, d);
    r := None;
  }

  /** Mark what `x` comes from, adding the newly seen to `next`. */
  method SeeAll(a: Facts, x: nat, seen: seq<bool>, next: seq<nat>) returns (seen': seq<bool>, next': seq<nat>)
    requires FactsOk(a) && x < |a.vals| && |seen| == |a.vals|
    ensures |seen'| == |seen| && next <= next'
    ensures SeenSet(seen') == SeenSet(seen) + Elems(next'[|next|..])
    ensures Elems(next') == Elems(next) + Elems(next'[|next|..])
    ensures forall w :: Edge(Back(a), x, w) ==> w in SeenSet(seen')
    ensures forall w :: w in Elems(next'[|next|..]) ==> Edge(Back(a), x, w)
    ensures if next' == next then seen' == seen else Unseen(seen') < Unseen(seen)
  {
    hide FactsOk, ReasonsFor, SeenSet, Elems, Unseen, Edge, Back;
    seen', next' := seen, next;
    NoElems();
    var from := ReasonsFor(a, x).from;
    assert next[|next|..] == [];
    for j := 0 to |from|
      invariant |seen'| == |seen| && next <= next'
      invariant SeenSet(seen') == SeenSet(seen) + Elems(next'[|next|..])
      invariant Elems(next') == Elems(next) + Elems(next'[|next|..])
      invariant forall i :: 0 <= i < j ==> from[i].IsStep() && from[i].from in SeenSet(seen')
      invariant forall w :: w in Elems(next'[|next|..]) ==> Edge(Back(a), x, w)
      invariant if next' == next then seen' == seen else Unseen(seen') < Unseen(seen)
    {
      var o := from[j];
      assert o in from;
      StepIsEdge(a, x, o);
      SeenIs(seen', o.from);
      if !seen'[o.from] {
        SeeShrinks(seen', o.from);
        SeenAdds(seen', o.from);
        ElemsAdds(next', o.from);
        ElemsAdds(next'[|next|..], o.from);
        assert (next' + [o.from])[|next|..] == next'[|next|..] + [o.from];
        seen', next' := seen'[o.from := true], next' + [o.from];
      }
    }
    EdgesInSeen(a, x, SeenSet(seen'));
  }

  lemma BackInStep(a: Facts, ball: set<nat>, x: nat)
    requires FactsOk(a) && x in ball && x < |a.vals|
    ensures forall w :: Edge(Back(a), x, w) ==> w in OneStep(Back(a), ball)
  {
    hide FactsOk, ReasonsFor;
  }

  lemma StartSearched(g: Graph, src: set<nat>, v: nat)
    ensures Ball(g, v, 0) == {v} && Searched(g, src, Ball(g, v, 0) - {v}, Ball(g, v, 0))
  {
    assert Ball(g, v, 0) - {v} == {};
  }

  lemma NothingSearched(g: Graph, src: set<nat>, ball: set<nat>)
    ensures Searched(g, src, {}, ball) && Elems([]) == {}
  { }

  lemma SeenIs(seen: seq<bool>, w: nat)
    requires w < |seen|
    ensures w in SeenSet(seen) <==> seen[w]
  { }

  lemma NoElems()
    ensures Elems([]) == {}
  { }

  lemma SeenAdds(seen: seq<bool>, w: nat)
    requires w < |seen|
    ensures SeenSet(seen[w := true]) == SeenSet(seen) + {w}
  { }

  lemma ElemsAdds(list: seq<nat>, w: nat)
    ensures Elems(list + [w]) == Elems(list) + {w}
  { }

  // -------------------------------------------------------------------- chains

  /** `o` is a source of `v`, or a step to a value one nearer a source. */
  ghost predicate IsOrigin(a: Facts, v: nat, o: Origin)
    requires FactsOk(a) && v < |a.vals|
  {
    if o.IsStep() then
      o in ReasonsFor(a, v).from && exists d: nat :: DepthIs(a, v, d + 1) && DepthIs(a, o.from, d)
    else ReasonsFor(a, v).source == Some(o)
  }

  method OriginOf(a: Facts, v: nat) returns (r: Option<Origin>)
    requires FactsOk(a) && v < |a.vals|
    ensures r.Some? ==> IsOrigin(a, v, r.value)
    ensures r.None? <==> Unexplained(a, v)
  {
    hide FactsOk, ReasonsFor, IsOrigin, DepthIs, Unexplained;
    var reasons := ReasonsFor(a, v);
    if reasons.source.Some? {
      SourceIsOrigin(a, v);
      return reasons.source;
    }
    var depth := Depth(a, v);
    if depth.None? { return None; }
    var d := depth.value;
    ghost var nearer := NearestStep(a, v, d);
    for k := 0 to |reasons.from|
      invariant forall j :: 0 <= j < k ==> reasons.from[j] != nearer
    {
      var o := reasons.from[k];
      assert o in reasons.from;
      StepIsEdge(a, v, o);
      var pd := Depth(a, o.from);
      if o == nearer { FindsDepth(a, o.from, d - 1, pd); }
      if pd.Some? && pd.value < d {
        NearerIsOrigin(a, v, d, o, pd.value);
        return Some(o);
      }
    }
    assert false;
  }

  lemma SourceIsOrigin(a: Facts, v: nat)
    requires FactsOk(a) && v < |a.vals| && ReasonsFor(a, v).source.Some?
    ensures IsOrigin(a, v, ReasonsFor(a, v).source.value) && !Unexplained(a, v) && DepthIs(a, v, 0)
  {
    hide FactsOk;
    SourceDepth(Back(a), Sources(a), v);
    HasDepth(Back(a), Sources(a), v, 0);
  }

  lemma NearestStep(a: Facts, v: nat, d: nat) returns (o: Origin)
    requires FactsOk(a) && v < |a.vals| && ReasonsFor(a, v).source.None? && DepthIs(a, v, d)
    ensures d > 0 && !Unexplained(a, v)
    ensures o in ReasonsFor(a, v).from && DepthIs(a, o.from, d - 1)
  {
    hide FactsOk, ReasonsFor, IsDepth, Sourceless;
    var g, src := Back(a), Sources(a);
    HasDepth(g, src, v, d);
    DepthOfStep(g, src, v, d);
    var w := StepIsNearer(g, src, v, d);
    o := EdgeIsStep(a, v, w);
  }

  lemma FindsDepth(a: Facts, w: nat, d: nat, found: Option<nat>)
    requires FactsOk(a) && DepthIs(a, w, d)
    requires (found.Some? ==> DepthIs(a, w, found.value)) && (found.None? ==> Unexplained(a, w))
    ensures found == Some(d)
  {
    hide FactsOk, ReasonsFor, IsDepth, Sourceless;
    HasDepth(Back(a), Sources(a), w, d);
    if found.Some? { DepthIsUnique(Back(a), Sources(a), w, d, found.value); }
  }

  lemma NearerIsOrigin(a: Facts, v: nat, d: nat, o: Origin, e: nat)
    requires FactsOk(a) && v < |a.vals| && o in ReasonsFor(a, v).from && e < d
    requires DepthIs(a, v, d) && DepthIs(a, o.from, e)
    ensures IsOrigin(a, v, o)
  {
    hide FactsOk, ReasonsFor, IsDepth;
    StepIsEdge(a, v, o);
    NearerByOne(Back(a), Sources(a), v, d, o.from, e);
    assert DepthIs(a, v, e + 1);
  }

  /** The value the `k`-th link of a chain from `v` is about. */
  function At(v: nat, chain: seq<Origin>, k: nat): nat
    requires k <= |chain|
  {
    if k > 0 && chain[k - 1].IsStep() then chain[k - 1].from else v
  }

  /** Every link but the last steps to a value one nearer, the last is a source. */
  ghost predicate IsChain(a: Facts, v: nat, chain: seq<Origin>)
    requires FactsOk(a)
  {
    && chain != [] && !chain[|chain| - 1].IsStep()
    && Linked(a, v, chain)
  }

  ghost predicate Linked(a: Facts, v: nat, chain: seq<Origin>)
    requires FactsOk(a)
  {
    && (forall k :: 0 <= k < |chain| ==> At(v, chain, k) < |a.vals| && IsOrigin(a, At(v, chain, k), chain[k]))
    && (forall k :: 0 <= k < |chain| - 1 ==> chain[k].IsStep())
  }

  /** The full chain from `v` back to a source: it ends, and is one longer than
      the depth. */
  method Explain(a: Facts, v: nat) returns (chain: seq<Origin>)
    requires FactsOk(a) && v < |a.vals|
    ensures chain == [] <==> Unexplained(a, v)
    ensures chain != [] ==> IsChain(a, v, chain) && DepthIs(a, v, |chain| - 1)
  {
    hide FactsOk, ReasonsFor, DepthIs, Unexplained, IsOrigin;
    chain := [];
    var cur, going := v, true;
    ghost var depth := DepthOf(a, v);
    ghost var left: nat := if depth.Some? then depth.value else 0;
    while going
      invariant going && depth.None? ==> chain == []
      invariant going ==> cur < |a.vals| && Linked(a, v, chain) && cur == At(v, chain, |chain|)
      invariant going ==> forall k :: 0 <= k < |chain| ==> chain[k].IsStep()
      invariant going && depth.Some? ==> DepthIs(a, cur, left) && DepthIs(a, v, |chain| + left)
      invariant !going ==> if depth.None? then chain == [] else IsChain(a, v, chain) && DepthIs(a, v, |chain| - 1)
      decreases going, left
    {
      var o := OriginOf(a, cur);
      if o.None? {
        if depth.Some? { FindsDepth(a, cur, left, None); }
        going := false;
      } else {
        OriginExplains(a, cur, o.value, depth, left);
        LinkMore(a, v, chain, o.value);
        chain := chain + [o.value];
        if o.value.IsStep() {
          cur, left := o.value.from, left - 1;
        } else {
          going := false;
        }
      }
    }
  }

  lemma DepthOf(a: Facts, v: nat) returns (d: Option<nat>)
    requires FactsOk(a)
    ensures if d.Some? then DepthIs(a, v, d.value) && !Unexplained(a, v) else Unexplained(a, v)
  {
    hide FactsOk, ReasonsFor, NoSource;
    var g, src := Back(a), Sources(a);
    if Sourceless(g, src, v) { return None; }
    var n: nat :| !NoSource(g, src, v, n);
    DepthExists(g, src, v, n);
    var e: nat :| IsDepth(g, src, v, e);
    d := Some(e);
  }

  lemma LinkMore(a: Facts, v: nat, chain: seq<Origin>, o: Origin)
    requires FactsOk(a) && Linked(a, v, chain) && forall k :: 0 <= k < |chain| ==> chain[k].IsStep()
    requires At(v, chain, |chain|) < |a.vals| && IsOrigin(a, At(v, chain, |chain|), o)
    ensures Linked(a, v, chain + [o])
  {
    hide FactsOk, IsOrigin;
    var more := chain + [o];
    forall k | 0 <= k < |more| ensures At(v, more, k) < |a.vals| && IsOrigin(a, At(v, more, k), more[k]) {
      if k < |chain| {
        assert At(v, more, k) == At(v, chain, k);
      } else {
        assert At(v, more, k) == At(v, chain, |chain|);
      }
    }
  }

  lemma OriginExplains(a: Facts, v: nat, o: Origin, depth: Option<nat>, d: nat)
    requires FactsOk(a) && v < |a.vals| && IsOrigin(a, v, o)
    requires if depth.Some? then DepthIs(a, v, d) else Unexplained(a, v)
    ensures depth.Some?
    ensures if o.IsStep() then d > 0 && o.from < |a.vals| && DepthIs(a, o.from, d - 1) else d == 0
  {
    hide FactsOk, IsDepth, Sourceless;
    var g, src := Back(a), Sources(a);
    if o.IsStep() {
      var e: nat :| DepthIs(a, v, e + 1) && DepthIs(a, o.from, e);
      HasDepth(g, src, v, e + 1);
      StepIsEdge(a, v, o);
      DepthIsUnique(g, src, v, d, e + 1);
    } else {
      SourceIsOrigin(a, v);
      DepthIsUnique(g, src, v, d, 0);
    }
  }

  // ------------------------------------------------- every secret is explained

  /** What the IR verifier adds: nothing branches to the entry, and every edge
      passes an argument for each parameter. */
  ghost predicate EdgesMatch(f: Function) {
    forall i: nat, si: nat :: i < |f.insts| && OperandsFit(f.insts[i]) && si < EdgeCount(f.insts[i].kind) ==>
      EdgeMatches(f, f.insts[i], si)
  }

  ghost predicate EdgeMatches(f: Function, t: Inst, si: nat)
    requires OperandsFit(t) && si < EdgeCount(t.kind)
  {
    var target := Target(t, si);
    f.entry != Some(target) && (target < |f.blocks| ==> |EdgeArgs(t, si)| >= |f.blocks[target].params|)
  }

  /** The taints with every unexplained secret made public. */
  ghost function Explainable(a: Facts, s: State<Taint>): (r: State<Taint>)
    requires FactsOk(a) && s.vals == a.vals
    ensures |r.vals| == |s.vals| && r.exec == s.exec && r.edges == s.edges && r.blockWl == s.blockWl && r.ssaWl == s.ssaWl
    ensures forall v: nat :: v < |r.vals| ==>
              r.vals[v] == if s.vals[v] == Secret && Unexplained(a, v) then Public else s.vals[v]
  {
    s.(vals := seq(|s.vals|, v requires 0 <= v < |s.vals| =>
                     if s.vals[v] == Secret && Unexplained(a, v) then Public else s.vals[v]))
  }

  ghost predicate Finished(a: Facts, secretGlobals: seq<bool>, mem: MemState, p: Problem<Taint>, s: State<Taint>) {
    && FactsOk(a) && a.vals == s.vals && EdgesMatch(a.f)
    && IsTaintFixpoint(a.f, a.secretParams, secretGlobals, a.roots, mem, p, s)
  }

  lemma FinishedParts(a: Facts, secretGlobals: seq<bool>, mem: MemState, p: Problem<Taint>, s: State<Taint>)
    requires Finished(a, secretGlobals, mem, p, s)
    ensures FactsOk(a) && a.vals == s.vals && EdgesMatch(a.f) && ProblemOk(p) && p.f == a.f
    ensures p.dom == TaintDomain(a.f, a.secretParams, a.roots, mem) && IsSolution(p, s)
    ensures forall sol: State<Taint> :: IsSolution(p, sol) ==> Below(p, s, sol)
  {
    hide EdgesMatch, WellFormedFunction, Below;
  }

  /** Lowered, an unexplained result still absorbs its operands. */
  lemma InstStaysAbsorbed(a: Facts, mem: MemState, p: Problem<Taint>, s: State<Taint>, i: nat)
    requires FactsOk(a) && a.vals == s.vals && ProblemOk(p) && p.f == a.f
    requires p.dom == TaintDomain(a.f, a.secretParams, a.roots, mem)
    requires i < |a.f.insts| && a.f.insts[i].result.Some?
    requires p.dom.le(Transferred(p, s, i), Val(p, s, a.f.insts[i].result.value))
    ensures var t := Explainable(a, s); p.dom.le(Transferred(p, t, i), Val(p, t, a.f.insts[i].result.value))
  {
    hide WellFormedFunction, Unexplained, ProblemOk, Transferred, TaintDomain, Explainable;
    ResultInRange(a.f, i);
    if IsSecret(a.vals, a.f.insts[i].result.value) && Unexplained(a, a.f.insts[i].result.value) {
      UnexplainedAbsorbs(a, mem, p, s, i);
    } else {
      OthersAbsorb(a, mem, p, s, i);
    }
  }

  lemma UnexplainedAbsorbs(a: Facts, mem: MemState, p: Problem<Taint>, s: State<Taint>, i: nat)
    requires FactsOk(a) && a.vals == s.vals && ProblemOk(p) && p.f == a.f
    requires p.dom == TaintDomain(a.f, a.secretParams, a.roots, mem)
    requires i < |a.f.insts| && a.f.insts[i].result.Some?
    requires p.dom.le(Transferred(p, s, i), Val(p, s, a.f.insts[i].result.value))
    requires IsSecret(a.vals, a.f.insts[i].result.value) && Unexplained(a, a.f.insts[i].result.value)
    ensures var t := Explainable(a, s); p.dom.le(Transferred(p, t, i), Val(p, t, a.f.insts[i].result.value))
  {
    hide WellFormedFunction, Unexplained, ProblemOk;
    var t := Explainable(a, s);
    var ops := a.f.insts[i].operands;
    var r := a.f.insts[i].result.value;
    ResultInRange(a.f, i);
    OpsInRange(a.f, i);
    LoadIsExplained(a, i, r);
    forall k | 0 <= k < |ops| ensures Val(p, t, ops[k]) != Secret {
      if s.vals[ops[k]] == Secret { OperandIsReason(a, i, r, k); }
    }
  }

  lemma OthersAbsorb(a: Facts, mem: MemState, p: Problem<Taint>, s: State<Taint>, i: nat)
    requires FactsOk(a) && a.vals == s.vals && ProblemOk(p) && p.f == a.f
    requires p.dom == TaintDomain(a.f, a.secretParams, a.roots, mem)
    requires i < |a.f.insts| && a.f.insts[i].result.Some?
    requires p.dom.le(Transferred(p, s, i), Val(p, s, a.f.insts[i].result.value))
    requires !(IsSecret(a.vals, a.f.insts[i].result.value) && Unexplained(a, a.f.insts[i].result.value))
    ensures var t := Explainable(a, s); p.dom.le(Transferred(p, t, i), Val(p, t, a.f.insts[i].result.value))
  {
    hide WellFormedFunction, Unexplained, ProblemOk;
    var t := Explainable(a, s);
    var ops := a.f.insts[i].operands;
    ResultInRange(a.f, i);
    OpsInRange(a.f, i);
    JoinAllMonotone(Operands(p, t, ops), Operands(p, s, ops));
  }

  lemma OpsInRange(f: Function, i: nat)
    requires WellFormedFunction(f) && i < |f.insts|
    ensures forall k :: 0 <= k < |f.insts[i].operands| ==> f.insts[i].operands[k] < |f.values|
  {
    assert WellFormedInst(f, i);
  }

  lemma LoadIsExplained(a: Facts, i: nat, r: nat)
    requires FactsOk(a) && i < |a.f.insts| && r < |a.vals| && a.f.values[r] == FromInst(i)
    requires a.vals[r] == Secret && Unexplained(a, r)
    ensures !a.f.insts[i].kind.Load?
  {
    hide WellFormedFunction, Sourceless;
    SourcelessIsNone(Back(a), Sources(a), r);
  }

  lemma OperandIsReason(a: Facts, i: nat, r: nat, k: nat)
    requires FactsOk(a) && i < |a.f.insts| && r < |a.vals| && a.f.values[r] == FromInst(i) && !a.f.insts[i].kind.Load?
    requires a.vals[r] == Secret && Unexplained(a, r)
    requires k < |a.f.insts[i].operands| && IsSecret(a.vals, a.f.insts[i].operands[k])
    ensures Unexplained(a, a.f.insts[i].operands[k])
  {
    hide WellFormedFunction, Sourceless;
    var w := a.f.insts[i].operands[k];
    assert w in a.f.insts[i].operands[..|a.f.insts[i].operands|];
    assert Operand(i, w) in ReasonsFor(a, r).from;
    StepIsEdge(a, r, Operand(i, w));
    FromSourceless(Back(a), Sources(a), r, w);
  }

  lemma ArgIsReason(a: Facts, i: nat, q: nat, si: nat, b: nat, index: nat, r: nat)
    requires FactsOk(a) && q < |a.f.blocks| && a.f.blocks[q].term == Some(i) && i < |a.f.insts|
    requires r < |a.vals| && a.f.values[r] == Param(b, index) && a.f.entry != Some(b)
    requires a.vals[r] == Secret && Unexplained(a, r)
    requires OperandsFit(a.f.insts[i]) && si < EdgeCount(a.f.insts[i].kind) && Target(a.f.insts[i], si) == b
    requires index < |EdgeArgs(a.f.insts[i], si)| && IsSecret(a.vals, EdgeArgs(a.f.insts[i], si)[index])
    ensures Unexplained(a, EdgeArgs(a.f.insts[i], si)[index])
  {
    hide WellFormedFunction, Sourceless;
    var w := EdgeArgs(a.f.insts[i], si)[index];
    assert PassesSecret(a, a.f.insts[i], si, b, index, w);
    BlockReasonFound(a, q, i, si, b, index, w, |a.f.blocks|);
    assert BlockArg(b, w) in ReasonsFor(a, r).from;
    StepIsEdge(a, r, BlockArg(b, w));
    FromSourceless(Back(a), Sources(a), r, w);
  }

  lemma EdgeStaysAbsorbed(a: Facts, mem: MemState, p: Problem<Taint>, s: State<Taint>, i: nat, b: nat, si: nat)
    requires FactsOk(a) && a.vals == s.vals && EdgesMatch(a.f) && ProblemOk(p) && p.f == a.f
    requires p.dom == TaintDomain(a.f, a.secretParams, a.roots, mem)
    requires b < |a.f.blocks| && a.f.blocks[b].term == Some(i) && i < |a.f.insts|
    requires OperandsFit(a.f.insts[i]) && si < EdgeCount(a.f.insts[i].kind) && EdgeOk(p, s, b, a.f.insts[i], si)
    ensures EdgeOk(p, Explainable(a, s), b, a.f.insts[i], si)
  {
    hide WellFormedFunction, Unexplained, ProblemOk;
    var s', t := Explainable(a, s), a.f.insts[i];
    var params := ParamsOf(p, Target(t, si));
    assert EdgeMatches(a.f, t, si);
    forall k: nat | k < |params| ensures p.dom.le(ArgVal(p, s', t, si, k), Val(p, s', params[k])) {
      BlockParam(a, Target(t, si), k);
      assert p.dom.le(ArgVal(p, s, t, si, k), Val(p, s, params[k]));
      var w := EdgeArgs(t, si)[k];
      EdgeArgInRange(a, i, si, w);
      if s.vals[params[k]] == Secret && Unexplained(a, params[k]) && s.vals[w] == Secret {
        ArgIsReason(a, i, b, si, Target(t, si), k, params[k]);
      }
    }
  }

  lemma BlockParam(a: Facts, b: nat, k: nat)
    requires FactsOk(a) && b < |a.f.blocks| && k < |a.f.blocks[b].params|
    ensures a.f.blocks[b].params[k] < |a.vals| && a.f.values[a.f.blocks[b].params[k]] == Param(b, k)
  {
    assert WellFormedBlock(a.f, b);
  }

  lemma EdgeArgInRange(a: Facts, i: nat, si: nat, w: nat)
    requires FactsOk(a) && i < |a.f.insts| && OperandsFit(a.f.insts[i]) && si < EdgeCount(a.f.insts[i].kind)
    requires w in EdgeArgs(a.f.insts[i], si)
    ensures w < |a.vals|
  {
    hide WellFormedFunction;
    OpsInRange(a.f, i);
  }

  lemma SeedsStayBelow(a: Facts, mem: MemState, p: Problem<Taint>, s: State<Taint>)
    requires FactsOk(a) && a.vals == s.vals && ProblemOk(p) && p.f == a.f
    requires p.dom == TaintDomain(a.f, a.secretParams, a.roots, mem) && SeedsBelow(p, s)
    ensures SeedsBelow(p, Explainable(a, s))
  {
    hide WellFormedFunction, ProblemOk;
    var t := Explainable(a, s);
    forall v: nat | v < |p.f.values| && !p.f.values[v].FromInst? ensures p.dom.le(Init(p, v), t.vals[v]) {
      assert p.dom.le(Init(p, v), s.vals[v]);
      if s.vals[v] == Secret && Unexplained(a, v) {
        SourcelessIsNone(Back(a), Sources(a), v);
      }
    }
  }

  lemma ExplainableIsSolution(a: Facts, secretGlobals: seq<bool>, mem: MemState, p: Problem<Taint>, s: State<Taint>)
    requires Finished(a, secretGlobals, mem, p, s)
    ensures IsSolution(p, Explainable(a, s))
  {
    hide WellFormedFunction, Unexplained, ProblemOk, Finished, FactsOk, SeedsBelow, Below, EdgesMatch, EdgeOk;
    FinishedParts(a, secretGlobals, mem, p, s);
    var t := Explainable(a, s);
    SeedsStayBelow(a, mem, p, s);
    assert Sized(p, t);
    forall i: nat, b: nat | i < |p.f.insts| && Placed(p.f, i, b) && t.exec[b] ensures Absorbed(p, t, i, b) {
      assert Absorbed(p, s, i, b);
      InstFits(a, i, b);
      if p.f.insts[i].kind.IsTerminator() {
        forall si: nat | si < EdgeCount(p.f.insts[i].kind) && Feasible(p, t, p.f.insts[i], si)
          ensures EdgeOk(p, t, b, p.f.insts[i], si)
        {
          assert Feasible(p, s, p.f.insts[i], si);
          EdgeStaysAbsorbed(a, mem, p, s, i, b, si);
        }
      } else if p.f.insts[i].result.Some? {
        InstStaysAbsorbed(a, mem, p, s, i);
      }
    }
  }

  lemma InstFits(a: Facts, i: nat, b: nat)
    requires FactsOk(a) && i < |a.f.insts| && Placed(a.f, i, b)
    ensures OperandsFit(a.f.insts[i]) && b < |a.f.blocks|
    ensures a.f.insts[i].kind.IsTerminator() ==> a.f.blocks[b].term == Some(i)
  {
    assert WellFormedInst(a.f, i) && WellFormedBlock(a.f, b);
  }

  /** Every secret value, and no other, has a chain back to a source: the taints
      are the least solution, and making the unexplained secrets public would give
      a smaller one. */
  lemma EverySecretExplained(a: Facts, secretGlobals: seq<bool>, mem: MemState, p: Problem<Taint>, s: State<Taint>, v: nat)
    requires Finished(a, secretGlobals, mem, p, s) && v < |a.vals|
    ensures FactsOk(a) && (a.vals[v] == Secret <==> exists d: nat :: DepthIs(a, v, d))
  {
    hide WellFormedFunction, ProblemOk, Finished, FactsOk, IsSolution, IsDepth, NoSource, EdgesMatch, ReasonsFor;
    FinishedParts(a, secretGlobals, mem, p, s);
    if a.vals[v] == Secret {
      ExplainableIsSolution(a, secretGlobals, mem, p, s);
      assert Below(p, s, Explainable(a, s));
      assert !Unexplained(a, v);
      var d := DepthOf(a, v);
    }
    if d: nat :| DepthIs(a, v, d) {
      ExplainedIsSecret(a, v, d);
    }
  }

  lemma ExplainedIsSecret(a: Facts, v: nat, d: nat)
    requires FactsOk(a) && v < |a.vals| && DepthIs(a, v, d)
    ensures a.vals[v] == Secret
  {
    hide FactsOk, DepthIs;
    if ReasonsFor(a, v).source.None? {
      var o := NearestStep(a, v, d);
    }
  }
}
