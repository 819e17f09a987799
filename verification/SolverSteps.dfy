/** The sparse solver's steps as functions of its working state. */
module SolverSteps {
  import opened Wrappers
  import opened Ir
  import opened AbstractDomain

  /** What one run works on: the function, the domain with its hooks, which
      blocks are loop headers, and where each instruction sits. */
  datatype Problem<!D> = Problem(f: Function, dom: Domain<D>, header: seq<bool>, instBlock: seq<Option<nat>>)

  datatype State<D> = State(vals: seq<D>, exec: seq<bool>, edges: seq<seq<bool>>,
                            blockWl: seq<nat>, ssaWl: seq<nat>)

  ghost predicate ProblemOk<D>(p: Problem<D>) {
    && WellFormedFunction(p.f)
    && p.f.entry.Some?
    && |p.header| == |p.f.blocks|
    && |p.instBlock| == |p.f.insts|
    && (forall i: nat, b: nat :: i < |p.f.insts| ==> (p.instBlock[i] == Some(b) <==> Placed(p.f, i, b)))
  }

  ghost predicate Sized<D>(p: Problem<D>, s: State<D>) {
    && |s.vals| == |p.f.values| && |s.exec| == |p.f.blocks| == |s.edges|
    && (forall b :: 0 <= b < |s.edges| ==> |s.edges[b]| == |SuccessorsOf(p.f, b)|)
    && (forall b :: b in s.blockWl ==> b < |s.exec| && s.exec[b])
    && (forall v :: v in s.ssaWl ==> v < |s.vals|)
  }

  function Val<D>(p: Problem<D>, s: State<D>, v: nat): D {
    if v < |s.vals| then s.vals[v] else p.dom.top
  }

  function Operands<D>(p: Problem<D>, s: State<D>, vs: seq<nat>): (r: seq<D>)
    ensures |r| == |vs| && forall k :: 0 <= k < |r| ==> r[k] == Val(p, s, vs[k])
  {
    seq(|vs|, k requires 0 <= k < |vs| => Val(p, s, vs[k]))
  }

  /** The initial abstract value of `v`: only constants, addresses and entry
      parameters consult the seed hook. */
  function Init<D>(p: Problem<D>, v: nat): D
    requires v < |p.f.values|
  {
    match p.f.values[v]
    case FromInst(_) => p.dom.bottom
    case Param(b, _) => if p.f.entry != Some(b) then p.dom.bottom else Seeded(p, v, p.dom.top)
    case Const(c) => Seeded(p, v, p.dom.abstractConst(c))
    case GlobalRef(_) => Seeded(p, v, p.dom.top)
  }

  function Seeded<D>(p: Problem<D>, v: nat, default: D): D {
    match p.dom.seed(v)
    case Some(d) => d
    case None => default
  }

  // ------------------------------------------------------------------ steps

  /** Store a value; a change puts it on the SSA worklist. */
  function SetVal<D(==)>(s: State<D>, v: nat, d: D): State<D> {
    if v < |s.vals| && d != s.vals[v] then s.(vals := s.vals[v := d], ssaWl := s.ssaWl + [v]) else s
  }

  function MarkBlock<D>(s: State<D>, b: nat): State<D> {
    if b < |s.exec| && !s.exec[b] then s.(exec := s.exec[b := true], blockWl := s.blockWl + [b]) else s
  }

  function MarkEdge<D>(s: State<D>, b: nat, si: nat): State<D> {
    if b < |s.edges| && si < |s.edges[b]| then s.(edges := s.edges[b := s.edges[b][si := true]]) else s
  }

  /** The transfer of instruction `i` on the current operand values. */
  function Transferred<D>(p: Problem<D>, s: State<D>, i: nat): D
    requires i < |p.f.insts|
  {
    p.dom.Apply(i, Operands(p, s, p.f.insts[i].operands))
  }

  /** Recompute one instruction; only value-producing ones do anything. */
  function VisitInst<D(==)>(p: Problem<D>, s: State<D>, i: nat): State<D>
    requires i < |p.f.insts|
  {
    match p.f.insts[i].result
    case None => s
    case Some(r) => SetVal(s, r, Transferred(p, s, i))
  }

  /** The guard of edge `si`, if it is conditional. */
  function EdgeGuard(k: Kind, si: nat): Option<Guard>
    requires si < EdgeCount(k)
  {
    match k
    case CondBr(_, _, _, _) => Some(CondIs(si == 0))
    case Switch(_, _, cases) =>
      if si == 0 then Some(CondNotAnyOf(seq(|cases|, i requires 0 <= i < |cases| => cases[i].value)))
      else Some(CondEquals(cases[si - 1].value))
    case _ => None
  }

  function Feasible<D>(p: Problem<D>, s: State<D>, t: Inst, si: nat): bool
    requires si < EdgeCount(t.kind)
  {
    match EdgeGuard(t.kind, si)
    case None => true
    case Some(g) => t.operands != [] && p.dom.edgeFeasible(Val(p, s, t.operands[0]), g)
  }

  /** The feasible edges among the first `n`, in successor order. */
  function FeasibleEdges<D>(p: Problem<D>, s: State<D>, t: Inst, n: nat): (r: seq<nat>)
    requires n <= EdgeCount(t.kind)
    ensures forall si: nat :: si in r <==> si < n && Feasible(p, s, t, si)
    ensures forall k :: 0 <= k < |r| ==> r[k] < n
  {
    if n == 0 then []
    else FeasibleEdges(p, s, t, n - 1) + (if Feasible(p, s, t, n - 1) then [n - 1] else [])
  }

  /** The value edge `si` of `t` passes for parameter `k`; a malformed edge with
      too few arguments passes top. */
  function ArgVal<D>(p: Problem<D>, s: State<D>, t: Inst, si: nat, k: nat): D
    requires OperandsFit(t) && si < EdgeCount(t.kind)
  {
    var args := EdgeArgs(t, si);
    if k < |args| then Val(p, s, args[k]) else p.dom.top
  }

  /** Merge an argument into a parameter, widening at loop headers. */
  function Merged<D>(p: Problem<D>, target: nat, old_: D, arg: D): D {
    var joined := p.dom.join(old_, arg);
    if target < |p.header| && p.header[target] then p.dom.widen(old_, joined) else joined
  }

  /** The target of edge `si` of terminator `t` in block `b`. */
  function Target(t: Inst, si: nat): nat
    requires si < EdgeCount(t.kind)
  {
    Successors(t.kind)[si]
  }

  function ParamsOf<D>(p: Problem<D>, b: nat): seq<nat> {
    if b < |p.f.blocks| then p.f.blocks[b].params else []
  }

  /** Merge edge `si`'s arguments into the target's first `n` parameters. */
  function UpdateParams<D(==)>(p: Problem<D>, s: State<D>, t: Inst, si: nat, n: nat): State<D>
    requires OperandsFit(t) && si < EdgeCount(t.kind) && n <= |ParamsOf(p, Target(t, si))|
  {
    if n == 0 then s
    else
      var s1 := UpdateParams(p, s, t, si, n - 1);
      var param := ParamsOf(p, Target(t, si))[n - 1];
      SetVal(s1, param, Merged(p, Target(t, si), Val(p, s1, param), ArgVal(p, s1, t, si, n - 1)))
  }

  function TakeEdge<D(==)>(p: Problem<D>, s: State<D>, b: nat, t: Inst, si: nat): State<D>
    requires OperandsFit(t) && si < EdgeCount(t.kind)
  {
    var target := Target(t, si);
    MarkBlock(UpdateParams(p, MarkEdge(s, b, si), t, si, |ParamsOf(p, target)|), target)
  }

  function TakeEdges<D(==)>(p: Problem<D>, s: State<D>, b: nat, t: Inst, sis: seq<nat>, n: nat): State<D>
    requires OperandsFit(t) && n <= |sis| && forall k :: 0 <= k < |sis| ==> sis[k] < EdgeCount(t.kind)
  {
    if n == 0 then s else
      TakeEdge(p, TakeEdges(p, s, b, t, sis, n - 1), b, t, sis[n - 1])
  }

  /** Re-evaluate the terminator of block `b`. */
  function VisitTerminator<D(==)>(p: Problem<D>, s: State<D>, b: nat): State<D>
    requires ProblemOk(p)
  {
    if b < |p.f.blocks| && p.f.blocks[b].term.Some? then
      assert WellFormedBlock(p.f, b);
      var t := p.f.insts[p.f.blocks[b].term.value];
      assert WellFormedInst(p.f, p.f.blocks[b].term.value);
      var sis := FeasibleEdges(p, s, t, EdgeCount(t.kind));
      TakeEdges(p, s, b, t, sis, |sis|)
    else s
  }

  /** Visit the first `n` of a list of body instructions. */
  function VisitInsts<D(==)>(p: Problem<D>, s: State<D>, list: seq<nat>, n: nat): State<D>
    requires n <= |list| && forall i :: i in list ==> i < |p.f.insts|
  {
    if n == 0 then s else
      assert list[n - 1] in list;
      VisitInst(p, VisitInsts(p, s, list, n - 1), list[n - 1])
  }

  function VisitBlock<D(==)>(p: Problem<D>, s: State<D>, b: nat): State<D>
    requires ProblemOk(p) && b < |p.f.blocks|
  {
    assert WellFormedBlock(p.f, b);
    VisitTerminator(p, VisitInsts(p, s, p.f.blocks[b].insts, |p.f.blocks[b].insts|), b)
  }

  /** Re-evaluate one use, if it sits in an executable block. */
  function ProcessUse<D(==)>(p: Problem<D>, s: State<D>, i: nat): State<D>
    requires ProblemOk(p) && i < |p.f.insts|
  {
    match p.instBlock[i]
    case None => s
    case Some(b) =>
      if b < |s.exec| && s.exec[b] then
        if p.f.insts[i].kind.IsTerminator() then VisitTerminator(p, s, b) else VisitInst(p, s, i)
      else s
  }

  function ProcessUses<D(==)>(p: Problem<D>, s: State<D>, us: seq<nat>, n: nat): State<D>
    requires ProblemOk(p) && n <= |us| && forall i :: i in us ==> i < |p.f.insts|
  {
    if n == 0 then s else
      assert us[n - 1] in us;
      ProcessUse(p, ProcessUses(p, s, us, n - 1), us[n - 1])
  }

  /** Which worklist entry an iteration takes. */
  datatype Choice = TakeBlock(k: nat) | TakeValue(k: nat)

  predicate Enabled<D>(s: State<D>, c: Choice) {
    match c
    case TakeBlock(k) => k < |s.blockWl|
    case TakeValue(k) => k < |s.ssaWl|
  }

  function Without(list: seq<nat>, k: nat): (r: seq<nat>)
    requires k < |list|
    ensures forall x :: x in r ==> x in list
    ensures forall x :: x in list ==> x in r || x == list[k]
  {
    assert list == list[..k] + [list[k]] + list[k + 1..];
    list[..k] + list[k + 1..]
  }

  /** One iteration, for an arbitrary choice of worklist entry. */
  function StepAt<D(==)>(p: Problem<D>, s: State<D>, c: Choice): State<D>
    requires ProblemOk(p) && Sized(p, s) && Enabled(s, c)
  {
    match c
    case TakeBlock(k) =>
      assert s.blockWl[k] in s.blockWl;
      VisitBlock(p, s.(blockWl := Without(s.blockWl, k)), s.blockWl[k])
    case TakeValue(k) =>
      var v := s.ssaWl[k];
      assert v in s.ssaWl;
      var us := Users(p.f.uses[v]);
      ProcessUses(p, s.(ssaWl := Without(s.ssaWl, k)), us, |us|)
  }

  /** The solver's own choice: blocks before values, last in first out. */
  function Latest<D>(s: State<D>): (c: Choice)
    requires !Stopped(s)
    ensures Enabled(s, c)
  {
    if s.blockWl != [] then TakeBlock(|s.blockWl| - 1) else TakeValue(|s.ssaWl| - 1)
  }

  predicate Stopped<D>(s: State<D>) {
    s.blockWl == [] && s.ssaWl == []
  }

  /** The state before the first iteration. */
  function Start<D(==)>(p: Problem<D>): State<D>
    requires ProblemOk(p)
  {
    var n := |p.f.blocks|;
    MarkBlock(State(seq(|p.f.values|, v requires 0 <= v < |p.f.values| => Init(p, v)),
                    seq(n, _ => false),
                    seq(n, b requires 0 <= b < n => seq(|SuccessorsOf(p.f, b)|, _ => false)),
                    [], []),
              p.f.entry.value)
  }
}
