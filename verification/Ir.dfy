/** The block-argument SSA form the analyses run over: blocks with parameters,
    instructions with flat operand lists, and terminators whose operands carry
    one argument slice per outgoing edge. */
module Ir {
  import opened Wrappers

  datatype Case = Case(value: int, target: nat, args: nat)

  /** Instruction kinds; the ones that no analysis here tells apart are `Pure`. */
  datatype Kind =
    | Pure(op: nat)
    | PtrAdd
    | Bitcast
    | Freeze
    | Declassify
    | Alloca
    | Load(secret: bool)
    | Store(flagged: bool)
    | MemCopy
    | MemSet
    | Ret
    | Br(target: nat)
    | CondBr(ifTrue: nat, ifFalse: nat, trueArgs: nat, falseArgs: nat)
    | Switch(default: nat, defaultArgs: nat, cases: seq<Case>)
    | Unreachable
  {
    predicate IsTerminator() {
      Ret? || Br? || CondBr? || Switch? || Unreachable?
    }
  }

  datatype Inst = Inst(kind: Kind, operands: seq<nat>, result: Option<nat>)

  datatype ValueDef =
    | FromInst(inst: nat)
    | Param(block: nat, index: nat)
    | Const(constant: int)
    | GlobalRef(global: nat)

  datatype Block = Block(params: seq<nat>, insts: seq<nat>, term: Option<nat>)

  /** One use: operand slot `operand` of instruction `inst`. */
  datatype Use = Use(inst: nat, operand: nat)

  /** `uses[v]` lists the uses of value `v`. */
  datatype Function = Function(entry: Option<nat>, blocks: seq<Block>, insts: seq<Inst>,
                               values: seq<ValueDef>, uses: seq<seq<Use>>)

  // ------------------------------------------------------------------ edges

  /** The successor blocks of a terminator, in edge order. */
  function Successors(k: Kind): (r: seq<nat>)
    ensures |r| == EdgeCount(k)
  {
    match k
    case Br(t) => [t]
    case CondBr(t, f, _, _) => [t, f]
    case Switch(d, _, cases) => [d] + CaseTargets(cases)
    case _ => []
  }

  function CaseTargets(cases: seq<Case>): (r: seq<nat>)
    ensures |r| == |cases| && forall i :: 0 <= i < |r| ==> r[i] == cases[i].target
  {
    seq(|cases|, i requires 0 <= i < |cases| => cases[i].target)
  }

  function EdgeCount(k: Kind): nat {
    match k
    case Br(_) => 1
    case CondBr(_, _, _, _) => 2
    case Switch(_, _, cases) => 1 + |cases|
    case _ => 0
  }

  function ArgsBefore(cases: seq<Case>, n: nat): nat
    requires n <= |cases|
  {
    if n == 0 then 0 else ArgsBefore(cases, n - 1) + cases[n - 1].args
  }

  /** Whether the operand list is long enough for every argument slice. */
  predicate OperandsFit(t: Inst) {
    match t.kind
    case CondBr(_, _, ta, fa) => |t.operands| == 1 + ta + fa
    case Switch(_, da, cases) => |t.operands| == 1 + da + ArgsBefore(cases, |cases|)
    case _ => true
  }

  /** The argument slice of edge `si` of terminator `t`. */
  function EdgeArgs(t: Inst, si: nat): (r: seq<nat>)
    requires OperandsFit(t) && si < EdgeCount(t.kind)
    ensures forall v :: v in r ==> v in t.operands
  {
    match t.kind
    case Br(_) => t.operands
    case CondBr(_, _, ta, fa) => if si == 0 then t.operands[1..1 + ta] else t.operands[1 + ta..1 + ta + fa]
    case Switch(_, da, cases) =>
      if si == 0 then t.operands[1..1 + da]
      else
        ArgsBeforeMonotone(cases, si, |cases|);
        var off := 1 + da + ArgsBefore(cases, si - 1);
        t.operands[off..off + cases[si - 1].args]
  }

  lemma {:induction false} ArgsBeforeMonotone(cases: seq<Case>, m: nat, n: nat)
    requires m <= n <= |cases|
    ensures ArgsBefore(cases, m) <= ArgsBefore(cases, n)
  {
    if m < n { ArgsBeforeMonotone(cases, m, n - 1); }
  }

  // ------------------------------------------------------- edges, case by case

  /** Which edges a terminator has: the only one of a branch, two of a conditional
      branch, and of a switch the default and one a case. */
  ghost predicate HasEdge(k: Kind, si: nat) {
    match k
    case Br(_) => si == 0
    case CondBr(_, _, _, _) => si < 2
    case Switch(_, _, cases) => si <= |cases|
    case _ => false
  }

  ghost function EdgeTo(k: Kind, si: nat): nat
    requires HasEdge(k, si)
  {
    match k
    case Br(target) => target
    case CondBr(ifTrue, ifFalse, _, _) => if si == 0 then ifTrue else ifFalse
    case Switch(default, _, cases) => if si == 0 then default else cases[si - 1].target
  }

  /** How many arguments edge `si` passes. */
  ghost function ArgNum(t: Inst, si: nat): nat
    requires HasEdge(t.kind, si)
  {
    match t.kind
    case Br(_) => |t.operands|
    case CondBr(_, _, trueArgs, falseArgs) => if si == 0 then trueArgs else falseArgs
    case Switch(_, defaultArgs, cases) => if si == 0 then defaultArgs else cases[si - 1].args
  }

  /** Where they begin: after the condition, slice after slice. */
  ghost function ArgFrom(t: Inst, si: nat): nat
    requires HasEdge(t.kind, si)
  {
    if t.kind.Br? then 0 else if si == 0 then 1 else ArgFrom(t, si - 1) + ArgNum(t, si - 1)
  }

  /** The terminator of block `q` has an edge `si` to block `b` that passes `w` for
      parameter `index`. */
  ghost predicate PassesArg(f: Function, q: nat, si: nat, b: nat, index: nat, w: nat) {
    && q < |f.blocks| && f.blocks[q].term.Some? && f.blocks[q].term.value < |f.insts|
    && var t := f.insts[f.blocks[q].term.value];
       && HasEdge(t.kind, si) && EdgeTo(t.kind, si) == b && index < ArgNum(t, si)
       && ArgFrom(t, si) + index < |t.operands| && t.operands[ArgFrom(t, si) + index] == w
  }

  lemma {:induction false} SwitchArgFrom(t: Inst, si: nat)
    requires t.kind.Switch? && 0 < si <= |t.kind.cases|
    ensures ArgFrom(t, si) == 1 + t.kind.defaultArgs + ArgsBefore(t.kind.cases, si - 1)
  {
    if si > 1 { SwitchArgFrom(t, si - 1); }
  }

  lemma SwitchEdges(t: Inst, si: nat)
    requires OperandsFit(t) && t.kind.Switch? && si < EdgeCount(t.kind)
    ensures HasEdge(t.kind, si) && Successors(t.kind)[si] == EdgeTo(t.kind, si)
    ensures ArgFrom(t, si) + ArgNum(t, si) <= |t.operands|
    ensures EdgeArgs(t, si) == t.operands[ArgFrom(t, si)..ArgFrom(t, si) + ArgNum(t, si)]
  {
    hide ArgFrom, ArgNum, EdgeArgs, OperandsFit;
    if si == 0 { DefaultSlice(t); } else { CaseSlice(t, si); }
  }

  lemma DefaultSlice(t: Inst)
    requires OperandsFit(t) && t.kind.Switch?
    ensures ArgFrom(t, 0) == 1 && 1 + ArgNum(t, 0) <= |t.operands| && EdgeArgs(t, 0) == t.operands[1..1 + ArgNum(t, 0)]
  {
    hide ArgsBefore;
  }

  lemma CaseSlice(t: Inst, si: nat)
    requires OperandsFit(t) && t.kind.Switch? && 0 < si <= |t.kind.cases|
    ensures ArgFrom(t, si) + ArgNum(t, si) <= |t.operands|
    ensures EdgeArgs(t, si) == t.operands[ArgFrom(t, si)..ArgFrom(t, si) + ArgNum(t, si)]
  {
    hide ArgFrom, ArgsBefore;
    SwitchArgFrom(t, si);
    NextBefore(t.kind.cases, si);
    ArgsBeforeMonotone(t.kind.cases, si, |t.kind.cases|);
  }

  lemma NextBefore(cases: seq<Case>, n: nat)
    requires 0 < n <= |cases|
    ensures ArgsBefore(cases, n) == ArgsBefore(cases, n - 1) + cases[n - 1].args
  { }

  lemma BranchEdges(t: Inst, si: nat)
    requires OperandsFit(t) && !t.kind.Switch? && si < EdgeCount(t.kind)
    ensures HasEdge(t.kind, si) && Successors(t.kind)[si] == EdgeTo(t.kind, si)
    ensures ArgFrom(t, si) + ArgNum(t, si) <= |t.operands|
    ensures EdgeArgs(t, si) == t.operands[ArgFrom(t, si)..ArgFrom(t, si) + ArgNum(t, si)]
  {
    if t.kind.CondBr? && si == 1 { assert ArgFrom(t, 1) == ArgFrom(t, 0) + ArgNum(t, 0); }
  }

  /** The edges, their targets and their slices of the operands. */
  lemma EdgesMean(t: Inst, si: nat)
    requires OperandsFit(t)
    ensures si < EdgeCount(t.kind) <==> HasEdge(t.kind, si)
    ensures HasEdge(t.kind, si) ==>
              && Successors(t.kind)[si] == EdgeTo(t.kind, si) && ArgFrom(t, si) + ArgNum(t, si) <= |t.operands|
              && EdgeArgs(t, si) == t.operands[ArgFrom(t, si)..ArgFrom(t, si) + ArgNum(t, si)]
  {
    hide OperandsFit, EdgeArgs, ArgFrom, ArgNum, EdgeTo, Successors;
    if si < EdgeCount(t.kind) { if t.kind.Switch? { SwitchEdges(t, si); } else { BranchEdges(t, si); } }
  }

  // ---------------------------------------------------------- well-formedness

  /** Instruction `i` sits in block `b`, as a body instruction or terminator. */
  ghost predicate Placed(f: Function, i: nat, b: nat) {
    b < |f.blocks| && (i in f.blocks[b].insts || f.blocks[b].term == Some(i))
  }

  /** What the IR verifier guarantees: ids in range, one block per placed
      instruction, matching definition sites, complete use lists, existing
      branch targets and full argument slices. */
  ghost predicate WellFormedFunction(f: Function) {
    && |f.uses| == |f.values|
    && (f.entry.Some? ==> f.entry.value < |f.blocks|)
    && (forall i: nat :: i < |f.insts| ==> WellFormedInst(f, i))
    && (forall b: nat :: b < |f.blocks| ==> WellFormedBlock(f, b))
    && (forall i: nat, b: nat, b': nat :: Placed(f, i, b) && Placed(f, i, b') ==> b == b')
    && (forall v: nat, u: Use :: v < |f.uses| && u in f.uses[v] ==>
          u.inst < |f.insts| && u.operand < |f.insts[u.inst].operands| && f.insts[u.inst].operands[u.operand] == v)
  }

  ghost predicate WellFormedInst(f: Function, i: nat)
    requires i < |f.insts| && |f.uses| == |f.values|
  {
    var inst := f.insts[i];
    && (forall k: nat :: k < |inst.operands| ==>
          inst.operands[k] < |f.values| && Use(i, k) in f.uses[inst.operands[k]])
    && (inst.result.Some? ==> inst.result.value < |f.values| && f.values[inst.result.value] == FromInst(i))
    && (inst.kind.IsTerminator() ==> inst.result.None?)
    && OperandsFit(inst)
    && (inst.kind.CondBr? || inst.kind.Switch? ==> inst.operands != [])
    && (forall s :: s in Successors(inst.kind) ==> s < |f.blocks|)
  }

  ghost predicate WellFormedBlock(f: Function, b: nat)
    requires b < |f.blocks|
  {
    var block := f.blocks[b];
    && (forall i :: i in block.insts ==> i < |f.insts| && !f.insts[i].kind.IsTerminator())
    && (block.term.Some? ==> block.term.value < |f.insts| && f.insts[block.term.value].kind.IsTerminator())
    && (forall k :: 0 <= k < |block.params| ==>
          block.params[k] < |f.values| && f.values[block.params[k]] == Param(b, k))
  }

  /** The instructions of a list of uses, in order. */
  function Users(us: seq<Use>): (r: seq<nat>)
    ensures |r| == |us| && forall k :: 0 <= k < |r| ==> r[k] == us[k].inst
  {
    seq(|us|, k requires 0 <= k < |us| => us[k].inst)
  }

  lemma UsersInRange(f: Function, v: nat)
    requires WellFormedFunction(f) && v < |f.uses|
    ensures forall i :: i in Users(f.uses[v]) ==> i < |f.insts|
  {
    forall i | i in Users(f.uses[v]) ensures i < |f.insts| {
      var k :| 0 <= k < |f.uses[v]| && f.uses[v][k].inst == i;
      assert f.uses[v][k] in f.uses[v];
    }
  }

  lemma UsersComplete(f: Function, i: nat, v: nat)
    requires WellFormedFunction(f) && i < |f.insts| && v in f.insts[i].operands
    ensures v < |f.values| && i in Users(f.uses[v])
  {
    assert WellFormedInst(f, i);
    var k :| 0 <= k < |f.insts[i].operands| && f.insts[i].operands[k] == v;
    var j :| 0 <= j < |f.uses[v]| && f.uses[v][j] == Use(i, k);
    assert Users(f.uses[v])[j] == i;
  }

  /** The successors of block `b`. */
  function SuccessorsOf(f: Function, b: nat): seq<nat> {
    if b < |f.blocks| && f.blocks[b].term.Some? && f.blocks[b].term.value < |f.insts|
    then Successors(f.insts[f.blocks[b].term.value].kind) else []
  }

  /** The terminator successor lists a control-flow graph is built from. */
  function TermLists(f: Function): (r: seq<Option<seq<nat>>>)
    ensures |r| == |f.blocks|
    ensures forall b :: 0 <= b < |r| && r[b].None? ==> SuccessorsOf(f, b) == []
    ensures forall b :: 0 <= b < |r| && r[b].Some? ==> r[b].value == SuccessorsOf(f, b)
  {
    seq(|f.blocks|, b requires 0 <= b < |f.blocks| =>
      if f.blocks[b].term.Some? then Some(SuccessorsOf(f, b)) else None)
  }

  lemma SuccessorsInRange(f: Function, b: nat, s: nat)
    requires WellFormedFunction(f) && s in SuccessorsOf(f, b)
    ensures s < |f.blocks|
  {
    assert WellFormedBlock(f, b);
    assert WellFormedInst(f, f.blocks[b].term.value);
  }
}
