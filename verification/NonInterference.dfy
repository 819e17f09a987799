/** Two-run non-interference: executions that agree on public inputs agree on
    every value the taint analysis does not call secret. */
module NonInterference {
  import opened Wrappers
  import opened Ir
  import opened AbstractDomain
  import opened SolverSteps
  import opened SolverSound
  import opened SolverLeast
  import opened Secret

  // ------------------------------------------------------- concrete semantics

  /** A memory object: the `n`-th slot some `alloca` made, a global, or memory
      of the caller. */
  datatype Obj = Slot(inst: nat, n: nat) | GlobalObj(global: nat) | External(k: nat)

  /** Pointers carry the object they point into. */
  datatype Val = Num(n: int) | Ptr(obj: Obj, off: int) | Undef

  type Memory = map<(Obj, int), Val>

  /** The parts of the machine the analysis does not look into: the pure
      operations, how many cells an access covers, and how a value is laid out
      in cells. */
  datatype Machine = Machine(
    pure: (nat, seq<Val>) -> Val,
    size: nat -> nat,
    encode: (Val, nat) -> seq<Val>,
    decode: seq<Val> -> Val)

  /** No operation makes up a pointer into an object: whatever points into it
      comes from something that did. */
  ghost predicate NoForging(m: Machine) {
    && (forall op: nat, vs: seq<Val> {:trigger m.pure(op, vs)} ::
          m.pure(op, vs).Ptr? ==> exists k :: 0 <= k < |vs| && PointsInto(vs[k], m.pure(op, vs).obj))
    && (forall cells: seq<Val> {:trigger m.decode(cells)} ::
          m.decode(cells).Ptr? ==> exists k :: 0 <= k < |cells| && PointsInto(cells[k], m.decode(cells).obj))
    && (forall v: Val, n: nat {:trigger m.encode(v, n)} ::
          && |m.encode(v, n)| == n
          && forall k :: 0 <= k < n && m.encode(v, n)[k].Ptr? ==> PointsInto(v, m.encode(v, n)[k].obj))
  }

  predicate PointsInto(v: Val, obj: Obj) {
    v.Ptr? && v.obj == obj
  }

  /** A point of an execution: `made` counts the slots allocated so far. */
  datatype Conf = Conf(block: nat, pos: nat, env: map<nat, Val>, mem: Memory, made: nat)

  function Cell(mem: Memory, obj: Obj, off: int): Val {
    if (obj, off) in mem then mem[(obj, off)] else Undef
  }

  function ReadCells(mem: Memory, obj: Obj, off: int, n: nat): (r: seq<Val>)
    ensures |r| == n && forall k :: 0 <= k < n ==> r[k] == Cell(mem, obj, off + k)
  {
    seq(n, k requires 0 <= k < n => Cell(mem, obj, off + k))
  }

  function WriteCells(mem: Memory, obj: Obj, off: int, cells: seq<Val>): (r: Memory)
    ensures forall o: Obj, i: int ::
              Cell(r, o, i) == if o == obj && off <= i < off + |cells| then cells[i - off] else Cell(mem, o, i)
  {
    mem + map i | off <= i < off + |cells| :: (obj, i) := cells[i - off]
  }

  /** The value of operand `v`: constants and global addresses are themselves. */
  function Read(f: Function, env: map<nat, Val>, v: nat): Option<Val> {
    if v >= |f.values| then None
    else
      match f.values[v]
      case Const(c) => Some(Num(c))
      case GlobalRef(g) => Some(Ptr(GlobalObj(g), 0))
      case _ => if v in env then Some(env[v]) else None
  }

  function ReadAll(f: Function, env: map<nat, Val>, vs: seq<nat>): (r: Option<seq<Val>>)
    ensures r.Some? <==> forall k :: 0 <= k < |vs| ==> Read(f, env, vs[k]).Some?
    ensures r.Some? ==> |r.value| == |vs| && forall k :: 0 <= k < |vs| ==> Read(f, env, vs[k]) == Some(r.value[k])
  {
    if forall k :: 0 <= k < |vs| ==> Read(f, env, vs[k]).Some?
    then Some(seq(|vs|, k requires 0 <= k < |vs| => Read(f, env, vs[k]).value))
    else None
  }

  /** What one instruction does: its result value, the new memory, and the new
      slot count; `None` when the operands make it undefined. */
  datatype Effect = Effect(value: Val, mem: Memory, made: nat)

  function Execute(m: Machine, i: nat, k: Kind, ops: seq<Val>, mem: Memory, made: nat): Option<Effect> {
    match k
    case Pure(op) => Some(Effect(m.pure(op, ops), mem, made))
    case PtrAdd =>
      if |ops| == 2 && ops[0].Ptr? && ops[1].Num?
      then Some(Effect(Ptr(ops[0].obj, ops[0].off + ops[1].n), mem, made))
      else Some(Effect(Undef, mem, made))
    case Bitcast => if |ops| == 1 then Some(Effect(ops[0], mem, made)) else None
    case Freeze => if |ops| == 1 then Some(Effect(if ops[0].Undef? then Num(0) else ops[0], mem, made)) else None
    case Declassify => if |ops| == 1 then Some(Effect(ops[0], mem, made)) else None
    case Alloca => Some(Effect(Ptr(Slot(i, made), 0), mem, made + 1))
    case Load(_) =>
      if |ops| == 1 && ops[0].Ptr?
      then Some(Effect(m.decode(ReadCells(mem, ops[0].obj, ops[0].off, m.size(i))), mem, made)) else None
    case Store(_) =>
      if |ops| == 2 && ops[0].Ptr?
      then Some(Effect(Undef, WriteCells(mem, ops[0].obj, ops[0].off, m.encode(ops[1], m.size(i))), made)) else None
    case MemSet =>
      if |ops| == 3 && ops[0].Ptr? && ops[2].Num? && ops[2].n >= 0
      then Some(Effect(Undef, WriteCells(mem, ops[0].obj, ops[0].off, seq(ops[2].n, _ => ops[1])), made)) else None
    case MemCopy =>
      if |ops| == 3 && ops[0].Ptr? && ops[1].Ptr? && ops[2].Num? && ops[2].n >= 0
      then Some(Effect(Undef, WriteCells(mem, ops[0].obj, ops[0].off,
                                         ReadCells(mem, ops[1].obj, ops[1].off, ops[2].n)), made)) else None
    case _ => None
  }

  /** Which edge a branch takes: `cond_br` on zero or not, `switch` on the first
      matching case. */
  function TakenEdge(k: Kind, cond: Val): (r: Option<nat>)
    ensures r.Some? ==> r.value < EdgeCount(k)
  {
    match k
    case Br(_) => Some(0)
    case CondBr(_, _, _, _) => if cond.Num? then Some(if cond.n != 0 then 0 else 1) else None
    case Switch(_, _, cases) => if cond.Num? then Some(FirstMatch(cases, cond.n, 0)) else None
    case _ => None
  }

  function FirstMatch(cases: seq<Case>, n: int, k: nat): (r: nat)
    requires k <= |cases|
    ensures r <= |cases|
    decreases |cases| - k
  {
    if k == |cases| then 0 else if cases[k].value == n then k + 1 else FirstMatch(cases, n, k + 1)
  }

  function BindParams(env: map<nat, Val>, params: seq<nat>, vals: seq<Val>): map<nat, Val> {
    if params == [] || vals == [] then env
    else BindParams(env, params[1..], vals[1..])[params[0] := vals[0]]
  }

  /** One step of execution; `None` when it has returned or is undefined. */
  function Next(f: Function, m: Machine, c: Conf): Option<Conf> {
    if c.block >= |f.blocks| then None
    else
      var block := f.blocks[c.block];
      if c.pos < |block.insts| then
        var i := block.insts[c.pos];
        if i >= |f.insts| then None
        else
          match ReadAll(f, c.env, f.insts[i].operands)
          case None => None
          case Some(ops) =>
            match Execute(m, i, f.insts[i].kind, ops, c.mem, c.made)
            case None => None
            case Some(e) =>
              var env := match f.insts[i].result { case None => c.env case Some(r) => c.env[r := e.value] };
              Some(Conf(c.block, c.pos + 1, env, e.mem, e.made))
      else if block.term.None? || block.term.value >= |f.insts| then None
      else
        var t := f.insts[block.term.value];
        match ReadAll(f, c.env, t.operands)
        case None => None
        case Some(ops) =>
          match TakenEdge(t.kind, if ops == [] then Undef else ops[0])
          case None => None
          case Some(si) =>
            if !OperandsFit(t) then None
            else
              var target := Successors(t.kind)[si];
              var params := if target < |f.blocks| then f.blocks[target].params else [];
              var args := EdgeArgs(t, si);
              if |args| < |params| then None
              else
                match ReadAll(f, c.env, args)
                case None => None
                case Some(vals) => Some(Conf(target, 0, BindParams(c.env, params, vals), c.mem, c.made))
  }

  /** The configuration after `n` steps. */
  function Steps(f: Function, m: Machine, c: Conf, n: nat): Option<Conf> {
    if n == 0 then Some(c)
    else
      match Steps(f, m, c, n - 1)
      case None => None
      case Some(c1) => Next(f, m, c1)
  }

  // ------------------------------------------------------------ the hypotheses

  /** The finished analysis of one function. */
  datatype Analysis = Analysis(f: Function, secretGlobals: seq<bool>, roots: seq<Option<MemRoot>>, mem: MemState,
                               p: Problem<Taint>, s: State<Taint>)
  {
    function RootAt(v: nat): MemRoot { RootOf(roots, v) }

    predicate IsSecretVal(v: nat) { IsSecret(s.vals, v) }

    predicate SecretGlobal(g: nat) { g < |secretGlobals| && secretGlobals[g] }
  }

  ghost predicate AnalysisOk(a: Analysis, secretParams: seq<bool>) {
    && WellFormedFunction(a.f)
    && IsTaintFixpoint(a.f, secretParams, a.secretGlobals, a.roots, a.mem, a.p, a.s)
    && RootsConsistent(a.f, a.roots)
  }

  /** The rules of the constant-time verifier that non-interference rests on,
      for one instruction: no declassification; no secret branch condition,
      address or length; nothing secret stored, unflagged, through an unknown
      pointer. */
  ghost predicate CleanInst(a: Analysis, i: nat)
    requires i < |a.f.insts|
  {
    var inst := a.f.insts[i];
    var ops := inst.operands;
    match inst.kind
    case Declassify => false
    case CondBr(_, _, _, _) => ops != [] && !a.IsSecretVal(ops[0])
    case Switch(_, _, _) => ops != [] && !a.IsSecretVal(ops[0])
    case Load(_) => |ops| == 1 && !a.IsSecretVal(ops[0])
    case Store(flagged) =>
      && |ops| == 2 && !a.IsSecretVal(ops[0])
      && (a.RootAt(ops[0]) == Unknown && !flagged ==> !a.IsSecretVal(ops[1]))
    case MemSet =>
      && |ops| == 3 && !a.IsSecretVal(ops[0]) && !a.IsSecretVal(ops[2])
      && (a.RootAt(ops[0]) == Unknown ==> !a.IsSecretVal(ops[1]))
    case MemCopy =>
      && |ops| == 3 && !a.IsSecretVal(ops[0]) && !a.IsSecretVal(ops[1]) && !a.IsSecretVal(ops[2])
      && (a.RootAt(ops[0]) == Unknown ==> !a.mem.RootSecret(a.RootAt(ops[1])))
    case _ => true
  }

  ghost predicate Clean(a: Analysis) {
    forall i: nat, b: nat :: i < |a.f.insts| && Placed(a.f, i, b) && b < |a.s.exec| && a.s.exec[b] ==> CleanInst(a, i)
  }

  /** The modular memory contract, at one point of an execution. `declared`
      says which cells hold declared secret memory on entry. An unflagged read
      through an unknown pointer or a public global's name stays off declared
      cells; a flagged write through an unknown pointer stays off public
      globals. */
  ghost predicate Contract(a: Analysis, declared: (Obj, int) -> bool, m: Machine, c: Conf) {
    c.block < |a.f.blocks| && c.pos < |a.f.blocks[c.block].insts| && a.f.blocks[c.block].insts[c.pos] < |a.f.insts| ==>
      var i := a.f.blocks[c.block].insts[c.pos];
      var inst := a.f.insts[i];
      match ReadAll(a.f, c.env, inst.operands)
      case None => true
      case Some(ops) =>
        match inst.kind
        case Load(secret) =>
          |ops| == 1 && ops[0].Ptr? && !secret && ReadsOpenly(a, inst.operands[0]) ==>
            OffDeclared(declared, ops[0].obj, ops[0].off, m.size(i))
        case MemCopy =>
          |ops| == 3 && ops[1].Ptr? && ops[2].Num? && ops[2].n >= 0 && ReadsOpenly(a, inst.operands[1]) ==>
            OffDeclared(declared, ops[1].obj, ops[1].off, ops[2].n)
        case Store(flagged) =>
          |ops| == 2 && ops[0].Ptr? && flagged && a.RootAt(inst.operands[0]) == Unknown ==>
            !(ops[0].obj.GlobalObj? && !a.SecretGlobal(ops[0].obj.global))
        case _ => true
  }

  /** A read whose declared-secret status the address itself does not show. */
  ghost predicate ReadsOpenly(a: Analysis, addr: nat) {
    match a.RootAt(addr)
    case Unknown => true
    case Global(g) => !a.SecretGlobal(g)
    case Stack(_) => false
  }

  ghost predicate OffDeclared(declared: (Obj, int) -> bool, obj: Obj, off: int, n: nat) {
    forall i :: off <= i < off + n ==> !declared(obj, i)
  }

  // ----------------------------------------------------------------- provenance

  /** A slot of an `alloca` whose address never escapes. */
  ghost predicate Local(f: Function, obj: Obj) {
    obj.Slot? && obj.inst < |f.insts| && f.insts[obj.inst].kind.Alloca?
    && f.insts[obj.inst].result.Some? && !Escapes(f, f.insts[obj.inst].result.value)
  }

  /** `v` is in every confined set that holds the address made by `i`. */
  ghost predicate Derived(f: Function, i: nat, v: nat) {
    i < |f.insts| && f.insts[i].result.Some?
    && forall closed: set<nat> :: f.insts[i].result.value in closed && Confined(f, closed) ==> v in closed
  }

  /** Pointers into local slots sit only in values derived from the slot and
      rooted there; rooted values point where their root says. */
  ghost predicate ValProv(a: Analysis, v: nat, x: Val) {
    x.Ptr? ==>
      && (Local(a.f, x.obj) ==> a.RootAt(v) == Stack(x.obj.inst) && Derived(a.f, x.obj.inst, v))
      && (match a.RootAt(v)
          case Stack(i) => Local(a.f, x.obj) && x.obj.inst == i
          case Global(g) => x.obj == GlobalObj(g)
          case Unknown => true)
  }

  ghost predicate NoLocal(f: Function, x: Val) {
    x.Ptr? ==> !Local(f, x.obj)
  }

  ghost predicate ProvOk(a: Analysis, c: Conf) {
    && (forall v: nat :: v in c.env ==> ValProv(a, v, c.env[v]))
    && (forall obj: Obj, off: int :: NoLocal(a.f, Cell(c.mem, obj, off)))
  }

  lemma ReadProv(a: Analysis, c: Conf, v: nat)
    requires RootsConsistent(a.f, a.roots) && ProvOk(a, c) && Read(a.f, c.env, v).Some?
    ensures ValProv(a, v, Read(a.f, c.env, v).value)
  {
    assert a.roots[v] == Some(RootStep(a.f, a.roots, v));
  }

  /** A pointer into a local slot is an operand only where its use is confined:
      as an address, or as the base of a derived pointer. */
  lemma LocalUse(a: Analysis, c: Conf, i: nat, k: nat)
    requires WellFormedFunction(a.f) && RootsConsistent(a.f, a.roots) && ProvOk(a, c)
    requires i < |a.f.insts| && k < |a.f.insts[i].operands|
    requires Read(a.f, c.env, a.f.insts[i].operands[k]).Some?
    requires !NoLocal(a.f, Read(a.f, c.env, a.f.insts[i].operands[k]).value)
    ensures var inst := a.f.insts[i];
            var x := Read(a.f, c.env, inst.operands[k]).value;
            || AddressUse(inst.kind, k)
            || (Derives(inst.kind) && k == 0 && inst.result.Some? && Derived(a.f, x.obj.inst, inst.result.value))
  {
    var inst := a.f.insts[i];
    var v := inst.operands[k];
    var x := Read(a.f, c.env, v).value;
    ReadProv(a, c, v);
    assert WellFormedInst(a.f, i);
    assert Use(i, k) in a.f.uses[v];
    var slot := a.f.insts[x.obj.inst].result.value;
    var closed: set<nat> :| slot in closed && Confined(a.f, closed);
    assert v in closed && UseConfined(a.f, closed, Use(i, k));
    if !AddressUse(inst.kind, k) {
      forall other: set<nat> | slot in other && Confined(a.f, other) ensures inst.result.value in other {
        assert v in other && UseConfined(a.f, other, Use(i, k));
      }
    }
  }

  /** What an effect may bring into being: a value with the right provenance,
      and no local pointer in memory. */
  ghost predicate EffectProv(a: Analysis, i: nat, e: Effect)
    requires i < |a.f.insts|
  {
    && (a.f.insts[i].result.Some? ==> ValProv(a, a.f.insts[i].result.value, e.value))
    && (forall obj: Obj, off: int :: NoLocal(a.f, Cell(e.mem, obj, off)))
  }

  ghost predicate Operating(a: Analysis, m: Machine, c: Conf, i: nat, ops: seq<Val>) {
    && WellFormedFunction(a.f) && RootsConsistent(a.f, a.roots) && NoForging(m) && ProvOk(a, c)
    && i < |a.f.insts| && ReadAll(a.f, c.env, a.f.insts[i].operands) == Some(ops)
  }

  lemma OperandNotLocal(a: Analysis, m: Machine, c: Conf, i: nat, ops: seq<Val>, k: nat)
    requires Operating(a, m, c, i, ops) && k < |ops|
    requires !AddressUse(a.f.insts[i].kind, k) && !(Derives(a.f.insts[i].kind) && k == 0)
    ensures NoLocal(a.f, ops[k])
  {
    if !NoLocal(a.f, ops[k]) { LocalUse(a, c, i, k); }
  }

  lemma ExecuteProv(a: Analysis, m: Machine, c: Conf, i: nat, ops: seq<Val>)
    requires Operating(a, m, c, i, ops)
    requires Execute(m, i, a.f.insts[i].kind, ops, c.mem, c.made).Some?
    ensures EffectProv(a, i, Execute(m, i, a.f.insts[i].kind, ops, c.mem, c.made).value)
  {
    var inst := a.f.insts[i];
    var e := Execute(m, i, inst.kind, ops, c.mem, c.made).value;
    assert WellFormedInst(a.f, i);
    if inst.result.Some? {
      var r := inst.result.value;
      assert a.roots[r] == Some(RootStep(a.f, a.roots, r));
    }
    match inst.kind {
      case Pure(op) =>
        forall k: nat | k < |ops| ensures NoLocal(a.f, ops[k]) { OperandNotLocal(a, m, c, i, ops, k); }
        assert NoLocal(a.f, m.pure(op, ops));
      case PtrAdd => DeriveProv(a, m, c, i, ops);
      case Bitcast => DeriveProv(a, m, c, i, ops);
      case Freeze => DeriveProv(a, m, c, i, ops);
      case Declassify => OperandNotLocal(a, m, c, i, ops, 0);
      case Alloca =>
      case Load(_) =>
        assert NoLocal(a.f, e.value);
      case Store(_) => WriteProv(a, m, c, i, ops);
      case MemSet => WriteProv(a, m, c, i, ops);
      case MemCopy => WriteProv(a, m, c, i, ops);
      case _ =>
    }
  }

  /** A write leaves no cell holding a confined slot's address. */
  lemma WriteProv(a: Analysis, m: Machine, c: Conf, i: nat, ops: seq<Val>)
    requires Operating(a, m, c, i, ops)
    requires Execute(m, i, a.f.insts[i].kind, ops, c.mem, c.made).Some?
    requires var k := a.f.insts[i].kind; k.Store? || k.MemSet? || k.MemCopy?
    ensures var e := Execute(m, i, a.f.insts[i].kind, ops, c.mem, c.made).value;
            forall obj: Obj, off: int :: NoLocal(a.f, Cell(e.mem, obj, off))
  {
    hide ValProv, WellFormedFunction, RootsConsistent;
    var k := a.f.insts[i].kind;
    var e := Execute(m, i, k, ops, c.mem, c.made).value;
    if !k.MemCopy? { OperandNotLocal(a, m, c, i, ops, 1); }
    forall obj: Obj, off: int ensures NoLocal(a.f, Cell(e.mem, obj, off)) { }
  }

  lemma DeriveProv(a: Analysis, m: Machine, c: Conf, i: nat, ops: seq<Val>)
    requires Operating(a, m, c, i, ops) && Derives(a.f.insts[i].kind)
    requires Execute(m, i, a.f.insts[i].kind, ops, c.mem, c.made).Some?
    ensures a.f.insts[i].result.Some? ==>
              ValProv(a, a.f.insts[i].result.value, Execute(m, i, a.f.insts[i].kind, ops, c.mem, c.made).value.value)
  {
    var inst := a.f.insts[i];
    if inst.result.Some? && ops != [] {
      var r := inst.result.value;
      assert WellFormedInst(a.f, i);
      assert a.roots[r] == Some(RootStep(a.f, a.roots, r));
      ReadProv(a, c, inst.operands[0]);
      if !NoLocal(a.f, ops[0]) { LocalUse(a, c, i, 0); }
    }
  }

  // ------------------------------------------------------------ low equivalence

  /** The cells on which two related runs are allowed to differ. */
  ghost predicate MayDiffer(a: Analysis, declared: (Obj, int) -> bool, obj: Obj, off: int) {
    if Local(a.f, obj) then obj.inst < |a.mem.stack| && a.mem.stack[obj.inst]
    else
      || declared(obj, off)
      || (a.mem.unknown && !(obj.GlobalObj? && !a.SecretGlobal(obj.global)))
      || (obj.GlobalObj? && obj.global < |a.mem.globals| && a.mem.globals[obj.global] && a.mem.storedGlobal)
  }

  ghost predicate MemLow(a: Analysis, declared: (Obj, int) -> bool, m1: Memory, m2: Memory) {
    forall obj: Obj, off: int :: Cell(m1, obj, off) != Cell(m2, obj, off) ==> MayDiffer(a, declared, obj, off)
  }

  ghost predicate EnvLow(a: Analysis, e1: map<nat, Val>, e2: map<nat, Val>) {
    && e1.Keys == e2.Keys
    && forall v: nat :: v in e1 && !a.IsSecretVal(v) ==> e1[v] == e2[v]
  }

  /** Same point, same public values, memory equal off the cells that may
      differ. */
  ghost predicate LowEqual(a: Analysis, declared: (Obj, int) -> bool, c1: Conf, c2: Conf) {
    && c1.block == c2.block && c1.pos == c2.pos && c1.made == c2.made
    && EnvLow(a, c1.env, c2.env) && MemLow(a, declared, c1.mem, c2.mem)
  }

  lemma PublicReadsAgree(a: Analysis, e1: map<nat, Val>, e2: map<nat, Val>, v: nat)
    requires EnvLow(a, e1, e2) && !a.IsSecretVal(v)
    ensures Read(a.f, e1, v) == Read(a.f, e2, v)
  { }

  lemma WriteLow(a: Analysis, declared: (Obj, int) -> bool, m1: Memory, m2: Memory, obj: Obj, off: int,
                 w1: seq<Val>, w2: seq<Val>)
    requires MemLow(a, declared, m1, m2) && |w1| == |w2|
    requires forall k :: 0 <= k < |w1| && w1[k] != w2[k] ==> MayDiffer(a, declared, obj, off + k)
    ensures MemLow(a, declared, WriteCells(m1, obj, off, w1), WriteCells(m2, obj, off, w2))
  {
    forall o: Obj, i: int | Cell(WriteCells(m1, obj, off, w1), o, i) != Cell(WriteCells(m2, obj, off, w2), o, i)
      ensures MayDiffer(a, declared, o, i)
    {
      if o == obj && off <= i < off + |w1| { assert w1[i - off] != w2[i - off]; }
    }
  }

  /** Memory a public, unflagged read reaches is the same in both runs. */
  lemma OpenReadAgrees(a: Analysis, declared: (Obj, int) -> bool, m1: Memory, m2: Memory, addr: nat, x: Val, n: nat)
    requires MemLow(a, declared, m1, m2) && x.Ptr? && ValProv(a, addr, x)
    requires !a.mem.RootSecret(a.RootAt(addr)) && MemCovers(a)
    requires ReadsOpenly(a, addr) ==> OffDeclared(declared, x.obj, x.off, n)
    ensures ReadCells(m1, x.obj, x.off, n) == ReadCells(m2, x.obj, x.off, n)
  {
    forall i | x.off <= i < x.off + n ensures Cell(m1, x.obj, i) == Cell(m2, x.obj, i) {
      match a.RootAt(addr)
      case Stack(_) => assert !MayDiffer(a, declared, x.obj, i);
      case Global(g) =>
        assert !a.SecretGlobal(g);
        assert !MayDiffer(a, declared, x.obj, i);
      case Unknown => assert !MayDiffer(a, declared, x.obj, i);
    }
  }

  /** The summary covers the secret globals and has an entry per instruction. */
  ghost predicate MemCovers(a: Analysis) {
    && |a.mem.stack| == |a.f.insts| && |a.mem.globals| == |a.secretGlobals|
    && (forall g: nat :: a.SecretGlobal(g) ==> a.mem.globals[g])
    && (forall v: nat :: v < |a.f.values| && a.f.values[v].GlobalRef? ==> a.f.values[v].global < |a.secretGlobals|)
  }

  ghost predicate GlobalRoots(a: Analysis) {
    forall v: nat, g: nat :: a.RootAt(v) == Global(g) ==> g < |a.secretGlobals|
  }

  /** Memory the summary records as tainted may differ. */
  lemma TaintedMayDiffer(a: Analysis, declared: (Obj, int) -> bool, addr: nat, x: Val)
    requires x.Ptr? && ValProv(a, addr, x) && MemCovers(a) && GlobalRoots(a)
    requires a.mem.Tainted(a.RootAt(addr)) == a.mem
    requires a.RootAt(addr) == Unknown ==> !(x.obj.GlobalObj? && !a.SecretGlobal(x.obj.global))
    ensures forall i: int :: MayDiffer(a, declared, x.obj, i)
  {
    match a.RootAt(addr)
    case Stack(j) => assert a.mem.stack[j := true] == a.mem.stack;
    case Global(g) => assert a.mem.globals[g := true] == a.mem.globals;
    case Unknown =>
  }

  // ------------------------------------------------------------------ one step

  /** Two related points about to run instruction `i` of a reachable block. */
  ghost predicate Lockstep(a: Analysis, secretParams: seq<bool>, declared: (Obj, int) -> bool, m: Machine,
                           c1: Conf, c2: Conf) {
    && AnalysisOk(a, secretParams) && Clean(a) && NoForging(m) && MemCovers(a) && GlobalRoots(a)
    && ProvOk(a, c1) && ProvOk(a, c2) && LowEqual(a, declared, c1, c2)
    && c1.block < |a.f.blocks| && c1.block < |a.s.exec| && a.s.exec[c1.block]
    && Contract(a, declared, m, c1) && Contract(a, declared, m, c2)
  }

  /** Both runs are at instruction `i` with operand values `o1` and `o2`. */
  ghost predicate AtInst(a: Analysis, c1: Conf, c2: Conf, i: nat, o1: seq<Val>, o2: seq<Val>) {
    && c1.block < |a.f.blocks| && c1.pos < |a.f.blocks[c1.block].insts|
    && i == a.f.blocks[c1.block].insts[c1.pos] && i < |a.f.insts|
    && ReadAll(a.f, c1.env, a.f.insts[i].operands) == Some(o1)
    && ReadAll(a.f, c2.env, a.f.insts[i].operands) == Some(o2)
  }

  /** A public operand has the same value in both runs. */
  lemma PublicOperandsAgree(a: Analysis, c1: Conf, c2: Conf, i: nat, o1: seq<Val>, o2: seq<Val>)
    requires EnvLow(a, c1.env, c2.env) && AtInst(a, c1, c2, i, o1, o2)
    ensures |o1| == |o2| == |a.f.insts[i].operands|
    ensures forall k :: 0 <= k < |o1| && !a.IsSecretVal(a.f.insts[i].operands[k]) ==> o1[k] == o2[k]
  {
    forall k | 0 <= k < |o1| && !a.IsSecretVal(a.f.insts[i].operands[k]) ensures o1[k] == o2[k] {
      PublicReadsAgree(a, c1.env, c2.env, a.f.insts[i].operands[k]);
    }
  }

  /** The equations the taint solution satisfies at instruction `i`. */
  lemma TransferBound(a: Analysis, secretParams: seq<bool>, b: nat, i: nat)
    requires AnalysisOk(a, secretParams) && i < |a.f.insts| && Placed(a.f, i, b) && b < |a.s.exec| && a.s.exec[b]
    requires !a.f.insts[i].kind.IsTerminator()
    requires a.f.insts[i].result.Some? && !a.IsSecretVal(a.f.insts[i].result.value)
    ensures match TransferHook(a.f, a.roots, a.mem, i)
            case Some(t) => t != Secret
            case None => !a.f.insts[i].kind.Declassify? && a.f.insts[i].kind != Load(true) ==>
              forall k :: 0 <= k < |a.f.insts[i].operands| ==> !a.IsSecretVal(a.f.insts[i].operands[k])
  {
    assert Absorbed(a.p, a.s, i, b);
    assert WellFormedInst(a.f, i);
    var vs := a.f.insts[i].operands;
    var ts := Operands(a.p, a.s, vs);
    assert a.p.dom.le(a.p.dom.Apply(i, ts), SolverSteps.Val(a.p, a.s, a.f.insts[i].result.value));
    if TransferHook(a.f, a.roots, a.mem, i).None? && !a.f.insts[i].kind.Declassify? && a.f.insts[i].kind != Load(true) {
      assert JoinAll(ts) != Secret;
      forall k | 0 <= k < |vs| ensures !a.IsSecretVal(vs[k]) { assert ts[k] != Secret; }
    }
  }

  /** A public result is the same in both runs. */
  lemma ResultAgrees(a: Analysis, secretParams: seq<bool>, declared: (Obj, int) -> bool, m: Machine,
                     c1: Conf, c2: Conf, i: nat, o1: seq<Val>, o2: seq<Val>)
    requires Lockstep(a, secretParams, declared, m, c1, c2) && AtInst(a, c1, c2, i, o1, o2)
    requires Execute(m, i, a.f.insts[i].kind, o1, c1.mem, c1.made).Some?
    requires Execute(m, i, a.f.insts[i].kind, o2, c2.mem, c2.made).Some?
    requires a.f.insts[i].result.Some? && !a.IsSecretVal(a.f.insts[i].result.value)
    ensures Execute(m, i, a.f.insts[i].kind, o1, c1.mem, c1.made).value.value
            == Execute(m, i, a.f.insts[i].kind, o2, c2.mem, c2.made).value.value
  {
    hide WellFormedFunction, RootsConsistent, IsTaintFixpoint, NoForging, MemLow;
    var inst := a.f.insts[i];
    InstPlaced(a, c1.block, c1.pos);
    TransferBound(a, secretParams, c1.block, i);
    assert CleanInst(a, i);
    PublicOperandsAgree(a, c1, c2, i, o1, o2);
    match inst.kind {
      case Load(secret) =>
        assert o1[0] == o2[0];
        ReadProv(a, c1, inst.operands[0]);
        OpenReadAgrees(a, declared, c1.mem, c2.mem, inst.operands[0], o1[0], m.size(i));
      case Declassify =>
      case Alloca =>
      case Store(_) =>
      case MemSet =>
      case MemCopy =>
      case Pure(_) => assert o1 == o2;
      case PtrAdd => assert o1 == o2;
      case Bitcast => assert o1 == o2;
      case Freeze => assert o1 == o2;
      case _ =>
    }
  }

  lemma InstPlaced(a: Analysis, b: nat, pos: nat)
    requires WellFormedFunction(a.f) && b < |a.f.blocks| && pos < |a.f.blocks[b].insts|
    ensures var i := a.f.blocks[b].insts[pos];
            i < |a.f.insts| && Placed(a.f, i, b) && !a.f.insts[i].kind.IsTerminator()
  {
    assert WellFormedBlock(a.f, b);
    assert a.f.blocks[b].insts[pos] in a.f.blocks[b].insts;
  }

  lemma Stable(a: Analysis, secretParams: seq<bool>, b: nat, pos: nat)
    requires AnalysisOk(a, secretParams) && b < |a.f.blocks| && pos < |a.f.blocks[b].insts|
    requires b < |a.s.exec| && a.s.exec[b]
    ensures SummarizeInst(a.f, a.s.vals, a.roots, a.mem, a.f.blocks[b].insts[pos]) == a.mem
  {
    StableSummary(a.f, a.s, a.roots, a.mem, |a.f.blocks|, b, pos);
  }

  /** The shape the three writing instructions share: same target, and cells
      that differ only if the summary has the target tainted. */
  lemma TargetWriteLow(a: Analysis, declared: (Obj, int) -> bool, c1: Conf, c2: Conf, addr: nat, x: Val,
                       w1: seq<Val>, w2: seq<Val>)
    requires MemLow(a, declared, c1.mem, c2.mem) && MemCovers(a) && GlobalRoots(a)
    requires x.Ptr? && ValProv(a, addr, x) && |w1| == |w2|
    requires w1 == w2
             || (&& a.mem.Tainted(a.RootAt(addr)) == a.mem
                 && (a.RootAt(addr) == Unknown ==> !(x.obj.GlobalObj? && !a.SecretGlobal(x.obj.global))))
    ensures MemLow(a, declared, WriteCells(c1.mem, x.obj, x.off, w1), WriteCells(c2.mem, x.obj, x.off, w2))
  {
    hide MayDiffer, MemCovers, GlobalRoots, ValProv, MemLow;
    if w1 != w2 { TaintedMayDiffer(a, declared, addr, x); }
    WriteLow(a, declared, c1.mem, c2.mem, x.obj, x.off, w1, w2);
  }

  lemma StoreStaysLow(a: Analysis, secretParams: seq<bool>, declared: (Obj, int) -> bool, m: Machine,
                      c1: Conf, c2: Conf, i: nat, o1: seq<Val>, o2: seq<Val>)
    requires Lockstep(a, secretParams, declared, m, c1, c2) && AtInst(a, c1, c2, i, o1, o2)
    requires a.f.insts[i].kind.Store? && CleanInst(a, i)
    requires SummarizeInst(a.f, a.s.vals, a.roots, a.mem, i) == a.mem
    requires Execute(m, i, a.f.insts[i].kind, o1, c1.mem, c1.made).Some?
    requires Execute(m, i, a.f.insts[i].kind, o2, c2.mem, c2.made).Some?
    ensures MemLow(a, declared, Execute(m, i, a.f.insts[i].kind, o1, c1.mem, c1.made).value.mem,
                   Execute(m, i, a.f.insts[i].kind, o2, c2.mem, c2.made).value.mem)
  {
    hide WellFormedFunction, RootsConsistent, IsTaintFixpoint, MemLow, MayDiffer, Clean, ValProv, MemCovers, GlobalRoots;
    var ops := a.f.insts[i].operands;
    PublicOperandsAgree(a, c1, c2, i, o1, o2);
    ReadProv(a, c1, ops[0]);
    EncodeSized(m, o1[1], m.size(i));
    EncodeSized(m, o2[1], m.size(i));
    TargetWriteLow(a, declared, c1, c2, ops[0], o1[0], m.encode(o1[1], m.size(i)), m.encode(o2[1], m.size(i)));
  }

  lemma MemSetStaysLow(a: Analysis, secretParams: seq<bool>, declared: (Obj, int) -> bool, m: Machine,
                       c1: Conf, c2: Conf, i: nat, o1: seq<Val>, o2: seq<Val>)
    requires Lockstep(a, secretParams, declared, m, c1, c2) && AtInst(a, c1, c2, i, o1, o2)
    requires a.f.insts[i].kind.MemSet? && CleanInst(a, i)
    requires SummarizeInst(a.f, a.s.vals, a.roots, a.mem, i) == a.mem
    requires Execute(m, i, a.f.insts[i].kind, o1, c1.mem, c1.made).Some?
    requires Execute(m, i, a.f.insts[i].kind, o2, c2.mem, c2.made).Some?
    ensures MemLow(a, declared, Execute(m, i, a.f.insts[i].kind, o1, c1.mem, c1.made).value.mem,
                   Execute(m, i, a.f.insts[i].kind, o2, c2.mem, c2.made).value.mem)
  {
    hide WellFormedFunction, RootsConsistent, IsTaintFixpoint, MemLow, MayDiffer, Clean, ValProv, MemCovers, GlobalRoots;
    var ops := a.f.insts[i].operands;
    PublicOperandsAgree(a, c1, c2, i, o1, o2);
    ReadProv(a, c1, ops[0]);
    TargetWriteLow(a, declared, c1, c2, ops[0], o1[0], seq(o1[2].n, _ => o1[1]), seq(o2[2].n, _ => o2[1]));
  }

  lemma MemCopyStaysLow(a: Analysis, secretParams: seq<bool>, declared: (Obj, int) -> bool, m: Machine,
                        c1: Conf, c2: Conf, i: nat, o1: seq<Val>, o2: seq<Val>)
    requires Lockstep(a, secretParams, declared, m, c1, c2) && AtInst(a, c1, c2, i, o1, o2)
    requires a.f.insts[i].kind.MemCopy? && CleanInst(a, i)
    requires SummarizeInst(a.f, a.s.vals, a.roots, a.mem, i) == a.mem
    requires Execute(m, i, a.f.insts[i].kind, o1, c1.mem, c1.made).Some?
    requires Execute(m, i, a.f.insts[i].kind, o2, c2.mem, c2.made).Some?
    ensures MemLow(a, declared, Execute(m, i, a.f.insts[i].kind, o1, c1.mem, c1.made).value.mem,
                   Execute(m, i, a.f.insts[i].kind, o2, c2.mem, c2.made).value.mem)
  {
    hide WellFormedFunction, RootsConsistent, IsTaintFixpoint, MemLow, MayDiffer, Clean, ValProv, MemCovers, GlobalRoots;
    var ops := a.f.insts[i].operands;
    PublicOperandsAgree(a, c1, c2, i, o1, o2);
    ReadProv(a, c1, ops[0]);
    ReadProv(a, c1, ops[1]);
    var n := o1[2].n;
    if !a.mem.RootSecret(a.RootAt(ops[1])) {
      OpenReadAgrees(a, declared, c1.mem, c2.mem, ops[1], o1[1], n);
    }
    TargetWriteLow(a, declared, c1, c2, ops[0], o1[0], ReadCells(c1.mem, o1[1].obj, o1[1].off, n),
                   ReadCells(c2.mem, o2[1].obj, o2[1].off, n));
  }

  /** Memory stays equal off the cells that may differ. */
  lemma MemoryStaysLow(a: Analysis, secretParams: seq<bool>, declared: (Obj, int) -> bool, m: Machine,
                       c1: Conf, c2: Conf, i: nat, o1: seq<Val>, o2: seq<Val>)
    requires Lockstep(a, secretParams, declared, m, c1, c2) && AtInst(a, c1, c2, i, o1, o2)
    requires Execute(m, i, a.f.insts[i].kind, o1, c1.mem, c1.made).Some?
    requires Execute(m, i, a.f.insts[i].kind, o2, c2.mem, c2.made).Some?
    ensures MemLow(a, declared, Execute(m, i, a.f.insts[i].kind, o1, c1.mem, c1.made).value.mem,
                   Execute(m, i, a.f.insts[i].kind, o2, c2.mem, c2.made).value.mem)
  {
    hide WellFormedFunction, RootsConsistent, IsTaintFixpoint, MemLow, MayDiffer, ValProv, MemCovers, GlobalRoots, Contract;
    InstPlaced(a, c1.block, c1.pos);
    assert CleanInst(a, i);
    Stable(a, secretParams, c1.block, c1.pos);
    match a.f.insts[i].kind {
      case Store(_) => StoreStaysLow(a, secretParams, declared, m, c1, c2, i, o1, o2);
      case MemSet => MemSetStaysLow(a, secretParams, declared, m, c1, c2, i, o1, o2);
      case MemCopy => MemCopyStaysLow(a, secretParams, declared, m, c1, c2, i, o1, o2);
      case _ =>
    }
  }

  lemma EncodeSized(m: Machine, v: Val, n: nat)
    requires NoForging(m)
    ensures |m.encode(v, n)| == n
  { }

  lemma InstStep(a: Analysis, secretParams: seq<bool>, declared: (Obj, int) -> bool, m: Machine, c1: Conf, c2: Conf)
    requires Lockstep(a, secretParams, declared, m, c1, c2) && c1.pos < |a.f.blocks[c1.block].insts|
    requires Next(a.f, m, c1).Some? && Next(a.f, m, c2).Some?
    ensures var d1, d2 := Next(a.f, m, c1).value, Next(a.f, m, c2).value;
            && LowEqual(a, declared, d1, d2) && ProvOk(a, d1) && ProvOk(a, d2) && d1.block == c1.block
  {
    hide WellFormedFunction, RootsConsistent, IsTaintFixpoint, MemLow, MayDiffer, NoForging, Clean, Contract, MemCovers, GlobalRoots, ValProv;
    var i := a.f.blocks[c1.block].insts[c1.pos];
    var inst := a.f.insts[i];
    var o1, o2 := ReadAll(a.f, c1.env, inst.operands).value, ReadAll(a.f, c2.env, inst.operands).value;
    var e1, e2 := Execute(m, i, inst.kind, o1, c1.mem, c1.made).value, Execute(m, i, inst.kind, o2, c2.mem, c2.made).value;
    ExecuteProv(a, m, c1, i, o1);
    ExecuteProv(a, m, c2, i, o2);
    MemoryStaysLow(a, secretParams, declared, m, c1, c2, i, o1, o2);
    MadeAgrees(m, i, inst.kind, o1, o2, c1, c2);
    if inst.result.Some? && !a.IsSecretVal(inst.result.value) {
      ResultAgrees(a, secretParams, declared, m, c1, c2, i, o1, o2);
    }
  }

  lemma MadeAgrees(m: Machine, i: nat, k: Kind, o1: seq<Val>, o2: seq<Val>, c1: Conf, c2: Conf)
    requires c1.made == c2.made
    requires Execute(m, i, k, o1, c1.mem, c1.made).Some? && Execute(m, i, k, o2, c2.mem, c2.made).Some?
    ensures Execute(m, i, k, o1, c1.mem, c1.made).value.made == Execute(m, i, k, o2, c2.mem, c2.made).value.made
  { }

  lemma BindParamsAt(env: map<nat, Val>, params: seq<nat>, vals: seq<Val>)
    requires |params| <= |vals| && forall i, j :: 0 <= i < j < |params| ==> params[i] != params[j]
    ensures BindParams(env, params, vals).Keys == env.Keys + (set v | v in params)
    ensures forall k :: 0 <= k < |params| ==> BindParams(env, params, vals)[params[k]] == vals[k]
    ensures forall v :: v in env && v !in params ==> BindParams(env, params, vals)[v] == env[v]
  {
    hide BindParams;
    forall v: nat ensures v in BindParams(env, params, vals) <==> v in env || v in params { BindKey(env, params, vals, v); }
    forall v | v in env && v !in params ensures BindParams(env, params, vals)[v] == env[v] { BindKey(env, params, vals, v); }
    forall k | 0 <= k < |params| ensures BindParams(env, params, vals)[params[k]] == vals[k] { BindValue(env, params, vals, k); }
  }

  lemma {:induction false} BindKey(env: map<nat, Val>, params: seq<nat>, vals: seq<Val>, v: nat)
    requires |params| <= |vals|
    ensures v in BindParams(env, params, vals) <==> v in env || v in params
    ensures v in env && v !in params ==> BindParams(env, params, vals)[v] == env[v]
    decreases |params|
  {
    if params != [] {
      assert v in params <==> v == params[0] || v in params[1..];
      BindKey(env, params[1..], vals[1..], v);
    }
  }

  lemma {:induction false} BindValue(env: map<nat, Val>, params: seq<nat>, vals: seq<Val>, k: nat)
    requires k < |params| <= |vals| && forall i, j :: 0 <= i < j < |params| ==> params[i] != params[j]
    ensures params[k] in BindParams(env, params, vals) && BindParams(env, params, vals)[params[k]] == vals[k]
    decreases k
  {
    if k > 0 {
      var ps := params[1..];
      forall i, j | 0 <= i < j < |ps| ensures ps[i] != ps[j] { assert params[i + 1] != params[j + 1]; }
      BindValue(env, ps, vals[1..], k - 1);
    }
  }

  /** The equations the taint solution satisfies on an edge. */
  lemma EdgeBound(a: Analysis, secretParams: seq<bool>, b: nat, si: nat)
    requires AnalysisOk(a, secretParams) && b < |a.f.blocks| && b < |a.s.exec| && a.s.exec[b]
    requires a.f.blocks[b].term.Some? && a.f.blocks[b].term.value < |a.f.insts|
    requires var t := a.f.insts[a.f.blocks[b].term.value];
             OperandsFit(t) && si < EdgeCount(t.kind) && (t.kind.Br? || t.operands != [])
    ensures var t := a.f.insts[a.f.blocks[b].term.value];
            var target := Successors(t.kind)[si];
            && target < |a.f.blocks| && target < |a.s.exec| && a.s.exec[target]
            && (forall k: nat | k < |EdgeArgs(t, si)| && k < |a.f.blocks[target].params| ::
                  !a.IsSecretVal(a.f.blocks[target].params[k]) ==> !a.IsSecretVal(EdgeArgs(t, si)[k]))
  {
    var i := a.f.blocks[b].term.value;
    var t := a.f.insts[i];
    assert WellFormedBlock(a.f, b) && WellFormedInst(a.f, i) && Placed(a.f, i, b);
    assert Absorbed(a.p, a.s, i, b);
    assert Feasible(a.p, a.s, t, si) && EdgeOk(a.p, a.s, b, t, si);
    var target := Successors(t.kind)[si];
    assert target in Successors(t.kind);
    assert WellFormedBlock(a.f, target);
    forall k: nat | k < |EdgeArgs(t, si)| && k < |a.f.blocks[target].params|
                    && !a.IsSecretVal(a.f.blocks[target].params[k])
      ensures !a.IsSecretVal(EdgeArgs(t, si)[k])
    {
      assert a.p.dom.le(ArgVal(a.p, a.s, t, si, k), SolverSteps.Val(a.p, a.s, a.f.blocks[target].params[k]));
    }
  }

  /** Branch arguments and parameters carry no pointer into a local slot. */
  lemma ParamProv(a: Analysis, c: Conf, i: nat, si: nat, target: nat, vals: seq<Val>)
    requires WellFormedFunction(a.f) && RootsConsistent(a.f, a.roots) && ProvOk(a, c)
    requires i < |a.f.insts| && a.f.insts[i].kind.IsTerminator() && OperandsFit(a.f.insts[i])
    requires si < EdgeCount(a.f.insts[i].kind) && target < |a.f.blocks|
    requires ReadAll(a.f, c.env, EdgeArgs(a.f.insts[i], si)) == Some(vals)
    ensures forall k :: 0 <= k < |vals| && k < |a.f.blocks[target].params| ==> ValProv(a, a.f.blocks[target].params[k], vals[k])
  {
    var t := a.f.insts[i];
    assert WellFormedBlock(a.f, target);
    forall k | 0 <= k < |vals| && k < |a.f.blocks[target].params|
      ensures ValProv(a, a.f.blocks[target].params[k], vals[k])
    {
      var param := a.f.blocks[target].params[k];
      assert a.roots[param] == Some(RootStep(a.f, a.roots, param));
      if !NoLocal(a.f, vals[k]) {
        var v := EdgeArgs(t, si)[k];
        assert v in t.operands;
        var j :| 0 <= j < |t.operands| && t.operands[j] == v;
        LocalUse(a, c, i, j);
      }
    }
  }

  lemma ParamsDistinct(f: Function, b: nat)
    requires WellFormedFunction(f) && b < |f.blocks|
    ensures forall i, j :: 0 <= i < j < |f.blocks[b].params| ==> f.blocks[b].params[i] != f.blocks[b].params[j]
  {
    assert WellFormedBlock(f, b);
  }

  /** The edge a step at the end of a block takes, and where it leads. */
  lemma NextEdge(f: Function, m: Machine, c: Conf) returns (si: nat, vals: seq<Val>)
    requires c.block < |f.blocks| && c.pos >= |f.blocks[c.block].insts| && Next(f, m, c).Some?
    ensures var block := f.blocks[c.block];
            && block.term.Some? && block.term.value < |f.insts|
            && var t := f.insts[block.term.value];
            && OperandsFit(t) && si < EdgeCount(t.kind)
            && ReadAll(f, c.env, t.operands).Some?
            && TakenEdge(t.kind, Condition(ReadAll(f, c.env, t.operands).value)) == Some(si)
            && ReadAll(f, c.env, EdgeArgs(t, si)) == Some(vals)
            && var target := Successors(t.kind)[si];
            && |vals| >= |ParamsAt(f, target)|
            && Next(f, m, c).value == Conf(target, 0, BindParams(c.env, ParamsAt(f, target), vals), c.mem, c.made)
  {
    var t := f.insts[f.blocks[c.block].term.value];
    si := TakenEdge(t.kind, Condition(ReadAll(f, c.env, t.operands).value)).value;
    vals := ReadAll(f, c.env, EdgeArgs(t, si)).value;
  }

  function Condition(ops: seq<Val>): Val {
    if ops == [] then Undef else ops[0]
  }

  function ParamsAt(f: Function, b: nat): seq<nat> {
    if b < |f.blocks| then f.blocks[b].params else []
  }

  /** Both runs take the same edge. */
  lemma SameEdge(a: Analysis, c1: Conf, c2: Conf, i: nat)
    requires EnvLow(a, c1.env, c2.env) && i < |a.f.insts| && CleanInst(a, i)
    requires ReadAll(a.f, c1.env, a.f.insts[i].operands).Some? && ReadAll(a.f, c2.env, a.f.insts[i].operands).Some?
    ensures TakenEdge(a.f.insts[i].kind, Condition(ReadAll(a.f, c1.env, a.f.insts[i].operands).value))
            == TakenEdge(a.f.insts[i].kind, Condition(ReadAll(a.f, c2.env, a.f.insts[i].operands).value))
  {
    var t := a.f.insts[i];
    if t.kind.CondBr? || t.kind.Switch? { PublicReadsAgree(a, c1.env, c2.env, t.operands[0]); }
  }

  /** The terminator step: both runs take the same edge. */
  lemma EdgeStep(a: Analysis, secretParams: seq<bool>, declared: (Obj, int) -> bool, m: Machine, c1: Conf, c2: Conf)
    requires Lockstep(a, secretParams, declared, m, c1, c2) && c1.pos >= |a.f.blocks[c1.block].insts|
    requires Next(a.f, m, c1).Some? && Next(a.f, m, c2).Some?
    ensures var d1, d2 := Next(a.f, m, c1).value, Next(a.f, m, c2).value;
            && LowEqual(a, declared, d1, d2) && ProvOk(a, d1) && ProvOk(a, d2)
            && d1.block < |a.f.blocks| && d1.block < |a.s.exec| && a.s.exec[d1.block]
  {
    hide RootsConsistent, IsTaintFixpoint, MemLow, MayDiffer, NoForging, Contract, MemCovers, GlobalRoots, ValProv, WellFormedFunction,
      Next, CleanInst, TakenEdge, EdgeArgs, OperandsFit;
    var si, v1 := NextEdge(a.f, m, c1);
    var si2, v2 := NextEdge(a.f, m, c2);
    var i := a.f.blocks[c1.block].term.value;
    var t := a.f.insts[i];
    TermPlaced(a, c1.block);
    assert CleanInst(a, i);
    SameEdge(a, c1, c2, i);
    HasCondition(a, i);
    EdgeBound(a, secretParams, c1.block, si);
    var target := Successors(t.kind)[si];
    var params, args := a.f.blocks[target].params, EdgeArgs(t, si);
    ParamsDistinct(a.f, target);
    BindParamsAt(c1.env, params, v1);
    BindParamsAt(c2.env, params, v2);
    ParamProv(a, c1, i, si, target, v1);
    ParamProv(a, c2, i, si, target, v2);
    EdgeEnvLow(a, c1, c2, params, args, v1, v2);
    EdgeProv(a, c1, params, v1);
    EdgeProv(a, c2, params, v2);
  }

  lemma HasCondition(a: Analysis, i: nat)
    requires i < |a.f.insts| && CleanInst(a, i) && EdgeCount(a.f.insts[i].kind) > 0
    ensures a.f.insts[i].kind.Br? || a.f.insts[i].operands != []
  { }

  // ------------------------------------------------------------------- progress

  lemma ReadableAlike(a: Analysis, e1: map<nat, Val>, e2: map<nat, Val>, vs: seq<nat>)
    requires EnvLow(a, e1, e2)
    ensures ReadAll(a.f, e1, vs).Some? <==> ReadAll(a.f, e2, vs).Some?
  {
    forall k | 0 <= k < |vs| ensures Read(a.f, e1, vs[k]).Some? <==> Read(a.f, e2, vs[k]).Some? { }
  }

  /** Addresses and lengths being public, an instruction is undefined in both runs
      or in neither. */
  lemma DefinedAlike(a: Analysis, m: Machine, c1: Conf, c2: Conf, i: nat, o1: seq<Val>, o2: seq<Val>)
    requires EnvLow(a, c1.env, c2.env) && AtInst(a, c1, c2, i, o1, o2) && CleanInst(a, i)
    ensures Execute(m, i, a.f.insts[i].kind, o1, c1.mem, c1.made).Some?
            <==> Execute(m, i, a.f.insts[i].kind, o2, c2.mem, c2.made).Some?
  {
    PublicOperandsAgree(a, c1, c2, i, o1, o2);
  }

  /** Either both runs can go on or neither can. */
  lemma GoesOnAlike(a: Analysis, secretParams: seq<bool>, declared: (Obj, int) -> bool, m: Machine, c1: Conf, c2: Conf)
    requires Lockstep(a, secretParams, declared, m, c1, c2)
    ensures Next(a.f, m, c1).Some? <==> Next(a.f, m, c2).Some?
  {
    hide RootsConsistent, IsTaintFixpoint, MemLow, MayDiffer, NoForging, Contract, MemCovers, GlobalRoots, ValProv, ProvOk, WellFormedFunction,
      CleanInst, TakenEdge, EdgeArgs, Execute, OperandsFit;
    var block := a.f.blocks[c1.block];
    if c1.pos < |block.insts| {
      InstPlaced(a, c1.block, c1.pos);
      var i := block.insts[c1.pos];
      assert CleanInst(a, i);
      ReadableAlike(a, c1.env, c2.env, a.f.insts[i].operands);
      if ReadAll(a.f, c1.env, a.f.insts[i].operands).Some? {
        DefinedAlike(a, m, c1, c2, i, ReadAll(a.f, c1.env, a.f.insts[i].operands).value,
                     ReadAll(a.f, c2.env, a.f.insts[i].operands).value);
      }
    } else if block.term.Some? {
      TermPlaced(a, c1.block);
      var i := block.term.value;
      var t := a.f.insts[i];
      assert CleanInst(a, i);
      ReadableAlike(a, c1.env, c2.env, t.operands);
      if ReadAll(a.f, c1.env, t.operands).Some? {
        SameEdge(a, c1, c2, i);
        var edge := TakenEdge(t.kind, Condition(ReadAll(a.f, c1.env, t.operands).value));
        if edge.Some? && OperandsFit(t) { ReadableAlike(a, c1.env, c2.env, EdgeArgs(t, edge.value)); }
      }
    }
  }

  lemma TermPlaced(a: Analysis, b: nat)
    requires WellFormedFunction(a.f) && b < |a.f.blocks| && a.f.blocks[b].term.Some?
    ensures var i := a.f.blocks[b].term.value;
            i < |a.f.insts| && Placed(a.f, i, b) && a.f.insts[i].kind.IsTerminator()
  {
    assert WellFormedBlock(a.f, b);
  }

  lemma EdgeEnvLow(a: Analysis, c1: Conf, c2: Conf, params: seq<nat>, args: seq<nat>, v1: seq<Val>, v2: seq<Val>)
    requires EnvLow(a, c1.env, c2.env) && |params| <= |args|
    requires forall i, j :: 0 <= i < j < |params| ==> params[i] != params[j]
    requires ReadAll(a.f, c1.env, args) == Some(v1) && ReadAll(a.f, c2.env, args) == Some(v2)
    requires forall k: nat :: k < |args| && k < |params| && !a.IsSecretVal(params[k]) ==> !a.IsSecretVal(args[k])
    ensures EnvLow(a, BindParams(c1.env, params, v1), BindParams(c2.env, params, v2))
  {
    BindParamsAt(c1.env, params, v1);
    BindParamsAt(c2.env, params, v2);
    var e1, e2 := BindParams(c1.env, params, v1), BindParams(c2.env, params, v2);
    forall v: nat | v in e1 && !a.IsSecretVal(v) ensures e1[v] == e2[v] {
      if v in params {
        var k :| 0 <= k < |params| && params[k] == v;
        PublicReadsAgree(a, c1.env, c2.env, args[k]);
      }
    }
  }

  lemma EdgeProv(a: Analysis, c: Conf, params: seq<nat>, vals: seq<Val>)
    requires ProvOk(a, c) && |params| <= |vals|
    requires forall i, j :: 0 <= i < j < |params| ==> params[i] != params[j]
    requires forall k :: 0 <= k < |vals| && k < |params| ==> ValProv(a, params[k], vals[k])
    ensures forall v: nat :: v in BindParams(c.env, params, vals) ==> ValProv(a, v, BindParams(c.env, params, vals)[v])
  {
    BindParamsAt(c.env, params, vals);
    var e := BindParams(c.env, params, vals);
    forall v: nat | v in e ensures ValProv(a, v, e[v]) {
      if v in params { var k :| 0 <= k < |params| && params[k] == v; }
    }
  }

  /** Two related points: either neither run can go on, or both do, to points
      related again. */
  lemma LockstepKept(a: Analysis, secretParams: seq<bool>, declared: (Obj, int) -> bool, m: Machine, c1: Conf, c2: Conf)
    requires Lockstep(a, secretParams, declared, m, c1, c2)
    ensures Next(a.f, m, c1).Some? <==> Next(a.f, m, c2).Some?
    ensures Next(a.f, m, c1).Some? ==>
              var d1, d2 := Next(a.f, m, c1).value, Next(a.f, m, c2).value;
              && LowEqual(a, declared, d1, d2) && ProvOk(a, d1) && ProvOk(a, d2)
              && d1.block < |a.f.blocks| && d1.block < |a.s.exec| && a.s.exec[d1.block]
  {
    hide AnalysisOk, Clean, NoForging, GlobalRoots, LowEqual, ProvOk, Contract, MemCovers, Next;
    GoesOnAlike(a, secretParams, declared, m, c1, c2);
    if Next(a.f, m, c1).Some? {
      if c1.pos < |a.f.blocks[c1.block].insts| {
        InstStep(a, secretParams, declared, m, c1, c2);
      } else {
        EdgeStep(a, secretParams, declared, m, c1, c2);
      }
    }
  }

  // ------------------------------------------------------------------ whole runs

  /** Two starts that agree on the public inputs: the same parameter bindings
      but for secret ones, the same memory but for declared cells, and no slot
      made yet. */
  ghost predicate PublicInputsAgree(a: Analysis, declared: (Obj, int) -> bool, c1: Conf, c2: Conf) {
    && a.f.entry == Some(c1.block) && c1.pos == 0 && c2.block == c1.block && c2.pos == 0 && c1.made == c2.made
    && EnvLow(a, c1.env, c2.env)
    && NoSlots(a.f, c1) && NoSlots(a.f, c2)
    && forall obj: Obj, off: int :: Cell(c1.mem, obj, off) != Cell(c2.mem, obj, off) ==> !obj.Slot? && declared(obj, off)
  }

  ghost predicate NoSlots(f: Function, c: Conf) {
    && (forall v: nat :: v in c.env ==>
          v < |f.values| && f.values[v].Param? && (c.env[v].Ptr? ==> !c.env[v].obj.Slot?))
    && (forall obj: Obj, off: int {:trigger Cell(c.mem, obj, off)} :: Cell(c.mem, obj, off).Ptr? ==> !Cell(c.mem, obj, off).obj.Slot?)
  }

  /** The contract holds at every point of the first `n` steps. */
  ghost predicate Contractual(a: Analysis, declared: (Obj, int) -> bool, m: Machine, c: Conf, n: nat) {
    forall k: nat :: k < n && Steps(a.f, m, c, k).Some? ==> Contract(a, declared, m, Steps(a.f, m, c, k).value)
  }

  lemma StartLow(a: Analysis, secretParams: seq<bool>, declared: (Obj, int) -> bool, c1: Conf, c2: Conf)
    requires AnalysisOk(a, secretParams) && PublicInputsAgree(a, declared, c1, c2)
    ensures LowEqual(a, declared, c1, c2) && ProvOk(a, c1) && ProvOk(a, c2)
    ensures c1.block < |a.f.blocks| && c1.block < |a.s.exec| && a.s.exec[c1.block]
  {
    forall v: nat | v in c1.env ensures ValProv(a, v, c1.env[v]) && ValProv(a, v, c2.env[v]) {
      assert a.roots[v] == Some(RootStep(a.f, a.roots, v));
    }
  }

  lemma CoversSecretGlobals(a: Analysis, secretParams: seq<bool>)
    requires AnalysisOk(a, secretParams)
    requires forall v: nat :: v < |a.f.values| && a.f.values[v].GlobalRef? ==> a.f.values[v].global < |a.secretGlobals|
    ensures MemCovers(a)
  { }

  /** Non-interference: after any number of steps, two executions from inputs that
      agree on everything public have both stopped before, or are at the same point
      and agree on every value not called secret. */
  lemma {:induction false} NonInterference(a: Analysis, secretParams: seq<bool>, declared: (Obj, int) -> bool, m: Machine,
                                           c1: Conf, c2: Conf, n: nat)
    requires AnalysisOk(a, secretParams) && Clean(a) && NoForging(m) && GlobalRoots(a)
    requires forall v: nat :: v < |a.f.values| && a.f.values[v].GlobalRef? ==> a.f.values[v].global < |a.secretGlobals|
    requires PublicInputsAgree(a, declared, c1, c2)
    requires Contractual(a, declared, m, c1, n) && Contractual(a, declared, m, c2, n)
    ensures Steps(a.f, m, c1, n).Some? <==> Steps(a.f, m, c2, n).Some?
    ensures Steps(a.f, m, c1, n).Some? ==>
              var d1, d2 := Steps(a.f, m, c1, n).value, Steps(a.f, m, c2, n).value;
              && LowEqual(a, declared, d1, d2) && ProvOk(a, d1) && ProvOk(a, d2)
              && d1.block < |a.f.blocks| && d1.block < |a.s.exec| && a.s.exec[d1.block]
  {
    hide AnalysisOk, Clean, NoForging, GlobalRoots, PublicInputsAgree, LowEqual, ProvOk, Contract, MemCovers, Next;
    if n == 0 {
      StartLow(a, secretParams, declared, c1, c2);
    } else {
      NonInterference(a, secretParams, declared, m, c1, c2, n - 1);
      CoversSecretGlobals(a, secretParams);
      if Steps(a.f, m, c1, n - 1).Some? {
        LockstepKept(a, secretParams, declared, m,
                     Steps(a.f, m, c1, n - 1).value, Steps(a.f, m, c2, n - 1).value);
      }
    }
  }
}
