/** Secret taint: the three-point lattice, memory roots with their escape
    analysis, the hooks that plug module facts into the solver, the
    flow-insensitive memory summary, and the loop that iterates both. */
module Secret {
  import opened Wrappers
  import opened Ir
  import opened AbstractDomain
  import opened SolverSteps
  import opened SolverSound
  import opened SolverLeast
  import opened Solver

  // ----------------------------------------------------------------- the domain

  datatype Taint = Bottom | Public | Secret
  {
    function Rank(): nat {
      match this
      case Bottom => 0
      case Public => 1
      case Secret => 2
    }
  }

  function FromSecret(b: bool): Taint {
    if b then Secret else Public
  }

  function Join(a: Taint, b: Taint): Taint {
    if a.Rank() >= b.Rank() then a else b
  }

  function JoinAll(ts: seq<Taint>): (r: Taint)
    ensures r == if exists k :: 0 <= k < |ts| && ts[k] == Secret then Secret else Public
  {
    if ts == [] then Public else
      assert ts == ts[..|ts| - 1] + [ts[|ts| - 1]];
      Join(JoinAll(ts[..|ts| - 1]), ts[|ts| - 1])
  }

  // -------------------------------------------------------------- memory roots

  datatype MemRoot = Stack(inst: nat) | Global(global: nat) | Unknown

  /** Whether an instruction passes its first operand's pointer along. */
  predicate Derives(k: Kind) {
    k.PtrAdd? || k.Bitcast? || k.Freeze?
  }

  /** A use that neither leaks the address nor needs following. */
  predicate AddressUse(k: Kind, operand: nat) {
    match k
    case Load(_) => operand == 0
    case Store(_) => operand == 0
    case MemCopy => operand < 2
    case MemSet => operand == 0
    case _ => false
  }

  /** `closed` holds the slot's address and every pointer derived from it, and
      all of these are used only as addresses of loads, stores, fills and copies. */
  ghost predicate Confined(f: Function, closed: set<nat>) {
    forall v: nat, u: Use :: v in closed && v < |f.uses| && u in f.uses[v] ==> UseConfined(f, closed, u)
  }

  ghost predicate UseConfined(f: Function, closed: set<nat>, u: Use) {
    u.inst < |f.insts| ==>
      var inst := f.insts[u.inst];
      match inst.kind
      case Load(_) | Store(_) | MemSet => u.operand == 0
      case MemCopy => u.operand == 0 || u.operand == 1
      case PtrAdd | Bitcast | Freeze => u.operand == 0 && inst.result.Some? && inst.result.value in closed
      case _ => false
  }

  /** The slot address `v` escapes: no confined set holds it. */
  ghost predicate Escapes(f: Function, v: nat) {
    !exists closed: set<nat> :: v in closed && Confined(f, closed)
  }

  /** Follow the address `v` through derived pointers; any other use escapes. */
  method SlotEscapes(f: Function, v: nat) returns (escapes: bool)
    requires WellFormedFunction(f) && v < |f.values|
    ensures escapes <==> Escapes(f, v)
  {
    hide WellFormedFunction, InEveryConfined, UseConfined, Escapes;
    var work: seq<nat> := [v];
    var seen := seq(|f.values|, _ => false);
    UsesSized(f);
    assert SeenOr(seen, work) == {v};
    OnlyStart(f, v);
    while work != []
      invariant |seen| == |f.values|
      invariant forall w :: w in work ==> w < |f.values|
      invariant v in work || seen[v]
      invariant forall w: nat, u: Use :: w < |seen| && seen[w] && u in f.uses[w] ==> UseConfined(f, SeenOr(seen, work), u)
      invariant InEveryConfined(f, v, SeenOr(seen, work))
      decreases Unseen(seen), |work|
    {
      var x := work[|work| - 1];
      ghost var before := SeenOr(seen, work);
      assert x in work;
      PopWork(seen, work);
      work := work[..|work| - 1];
      if !seen[x] {
        SeeShrinks(seen, x);
        seen := seen[x := true];
        assert SeenOr(seen, work) == before;
        var k := 0;
        while k < |f.uses[x]|
          invariant k <= |f.uses[x]| && |seen| == |f.values|
          invariant forall w :: w in work ==> w < |f.values|
          invariant v in work || seen[v]
          invariant forall j :: 0 <= j < k ==> UseConfined(f, SeenOr(seen, work), f.uses[x][j])
          invariant forall w: nat, u: Use :: w < |seen| && w != x && seen[w] && u in f.uses[w] ==>
                      UseConfined(f, SeenOr(seen, work), u)
          invariant InEveryConfined(f, v, SeenOr(seen, work))
        {
          var u := f.uses[x][k];
          assert u in f.uses[x] && x in SeenOr(seen, work);
          UseInRange(f, x, u);
          var inst := f.insts[u.inst];
          ghost var now := SeenOr(seen, work);
          if AddressUse(inst.kind, u.operand) {
            AddressConfined(f, now, u);
          } else if Derives(inst.kind) && u.operand == 0 && inst.result.Some? {
            ResultInRange(f, u.inst);
            PushWork(seen, work, inst.result.value);
            work := work + [inst.result.value];
            DerivedConfined(f, v, x, u, now);
            ConfinedGrows(f, now, SeenOr(seen, work));
          } else {
            OtherUseEscapes(f, v, x, u, now);
            return true;
          }
          k := k + 1;
        }
        forall u: Use | u in f.uses[x] ensures UseConfined(f, SeenOr(seen, work), u) {
          var j :| 0 <= j < |f.uses[x]| && f.uses[x][j] == u;
        }
      } else {
        assert SeenOr(seen, work) == before;
      }
    }
    ConfinedAtEnd(f, v, SeenOr(seen, []));
    escapes := false;
  }

  /** Every confined set holding `v` holds all of `part`. */
  ghost predicate InEveryConfined(f: Function, v: nat, part: set<nat>) {
    forall closed: set<nat> :: v in closed && Confined(f, closed) ==> part <= closed
  }

  lemma OnlyStart(f: Function, v: nat)
    ensures InEveryConfined(f, v, {v})
  { }

  lemma AddressConfined(f: Function, part: set<nat>, u: Use)
    requires u.inst < |f.insts| && AddressUse(f.insts[u.inst].kind, u.operand)
    ensures UseConfined(f, part, u)
  { }

  lemma DerivedConfined(f: Function, v: nat, x: nat, u: Use, part: set<nat>)
    requires InEveryConfined(f, v, part) && x in part && x < |f.uses| && u in f.uses[x] && u.inst < |f.insts|
    requires x < |f.values|
    requires var inst := f.insts[u.inst];
             !AddressUse(inst.kind, u.operand) && Derives(inst.kind) && u.operand == 0 && inst.result.Some?
    ensures InEveryConfined(f, v, part + {f.insts[u.inst].result.value})
    ensures UseConfined(f, part + {f.insts[u.inst].result.value}, u)
  {
    forall closed: set<nat> | v in closed && Confined(f, closed)
      ensures part + {f.insts[u.inst].result.value} <= closed
    {
      assert UseConfined(f, closed, u);
    }
  }

  lemma OtherUseEscapes(f: Function, v: nat, x: nat, u: Use, part: set<nat>)
    requires InEveryConfined(f, v, part) && x in part && x < |f.uses| && u in f.uses[x] && u.inst < |f.insts|
    requires var inst := f.insts[u.inst];
             !AddressUse(inst.kind, u.operand) && !(Derives(inst.kind) && u.operand == 0 && inst.result.Some?)
    ensures Escapes(f, v)
  {
    forall closed: set<nat> ensures !(v in closed && Confined(f, closed)) {
      assert !UseConfined(f, closed, u);
    }
  }

  lemma ConfinedAtEnd(f: Function, v: nat, closed: set<nat>)
    requires v in closed && Confined(f, closed)
    ensures !Escapes(f, v)
  { }

  ghost function SeenOr(seen: seq<bool>, work: seq<nat>): set<nat> {
    (set w: nat | w < |seen| && seen[w]) + (set w | w in work)
  }

  ghost function Unseen(seen: seq<bool>): set<nat> {
    set w: nat | w < |seen| && !seen[w]
  }

  lemma SeeShrinks(seen: seq<bool>, x: nat)
    requires x < |seen| && !seen[x]
    ensures Unseen(seen[x := true]) < Unseen(seen)
  {
    assert x in Unseen(seen);
  }

  lemma PopWork(seen: seq<bool>, work: seq<nat>)
    requires work != []
    ensures var m := |work| - 1;
            && (forall w :: w in work[..m] ==> w in work)
            && (forall w :: w in work ==> w in work[..m] || w == work[m])
  {
    var m := |work| - 1;
    assert work == work[..m] + [work[m]];
  }

  lemma PushWork(seen: seq<bool>, work: seq<nat>, r: nat)
    ensures SeenOr(seen, work + [r]) == SeenOr(seen, work) + {r}
  { }

  lemma ConfinedGrows(f: Function, a: set<nat>, b: set<nat>)
    requires a <= b
    ensures forall u: Use :: UseConfined(f, a, u) ==> UseConfined(f, b, u)
  { }

  lemma UsesSized(f: Function)
    requires WellFormedFunction(f)
    ensures |f.uses| == |f.values|
  { }

  lemma UseInRange(f: Function, v: nat, u: Use)
    requires WellFormedFunction(f) && v < |f.uses| && u in f.uses[v]
    ensures u.inst < |f.insts| && u.operand < |f.insts[u.inst].operands| && f.insts[u.inst].operands[u.operand] == v
  { }

  lemma ResultInRange(f: Function, i: nat)
    requires WellFormedFunction(f) && i < |f.insts| && f.insts[i].result.Some?
    ensures f.insts[i].result.value < |f.values| && f.values[f.insts[i].result.value] == FromInst(i)
  {
    assert WellFormedInst(f, i);
  }

  // ------------------------------------------------------------ resolving roots

  const DEPTH_LIMIT: nat := 64

  /** What a value's root is, given the roots of the values it derives from. */
  ghost function RootStep(f: Function, roots: seq<Option<MemRoot>>, v: nat): MemRoot
    requires v < |f.values|
  {
    match f.values[v]
    case GlobalRef(g) => Global(g)
    case FromInst(i) =>
      if i >= |f.insts| then Unknown
      else
        (match f.insts[i].kind
         case Alloca => if Escapes(f, v) then Unknown else Stack(i)
         case PtrAdd | Bitcast | Freeze => if f.insts[i].operands == [] then Unknown else RootOf(roots, f.insts[i].operands[0])
         case _ => Unknown)
    case _ => Unknown
  }

  /** An unresolved root counts as unknown when dereferenced. */
  function RootOf(roots: seq<Option<MemRoot>>, v: nat): MemRoot {
    if v < |roots| && roots[v].Some? then roots[v].value else Unknown
  }

  /** Every value has a root, and each derived pointer has the root of the
      pointer it derives from. */
  ghost predicate RootsConsistent(f: Function, roots: seq<Option<MemRoot>>) {
    && |roots| == |f.values|
    && forall v: nat :: v < |roots| ==> roots[v] == Some(RootStep(f, roots, v))
  }

  /** The memoizing resolution, with its depth limit, as a function. */
  ghost function ResolveSpec(f: Function, roots: seq<Option<MemRoot>>, v: nat, depth: nat)
    : (r: (MemRoot, seq<Option<MemRoot>>))
    requires WellFormedFunction(f) && |roots| == |f.values| && v < |roots|
    ensures |r.1| == |roots| && r.1[v] == Some(r.0)
    ensures forall w: nat :: w < |roots| && roots[w].Some? ==> r.1[w] == roots[w]
    decreases if depth <= DEPTH_LIMIT then DEPTH_LIMIT - depth else 0
  {
    if roots[v].Some? then (roots[v].value, roots)
    else
      match f.values[v]
      case GlobalRef(g) => (Global(g), roots[v := Some(Global(g))])
      case FromInst(i) =>
        if depth < DEPTH_LIMIT && i < |f.insts| then
          var inst := f.insts[i];
          if inst.kind.Alloca? then
            var r := if Escapes(f, v) then Unknown else Stack(i);
            (r, roots[v := Some(r)])
          else if Derives(inst.kind) && inst.operands != [] then
            assert WellFormedInst(f, i);
            var (r, roots1) := ResolveSpec(f, roots, inst.operands[0], depth + 1);
            (r, roots1[v := Some(r)])
          else (Unknown, roots[v := Some(Unknown)])
        else (Unknown, roots[v := Some(Unknown)])
      case _ => (Unknown, roots[v := Some(Unknown)])
  }

  /** Resolve the first `k` values in index order. */
  ghost function RootsSpec(f: Function, k: nat): (r: seq<Option<MemRoot>>)
    requires WellFormedFunction(f) && k <= |f.values|
    ensures |r| == |f.values|
  {
    if k == 0 then seq(|f.values|, _ => None) else ResolveSpec(f, RootsSpec(f, k - 1), k - 1, 0).1
  }

  method Resolve(f: Function, v: nat, roots: array<Option<MemRoot>>, depth: nat) returns (r: MemRoot)
    requires WellFormedFunction(f) && roots.Length == |f.values| && v < roots.Length
    modifies roots
    ensures (r, roots[..]) == ResolveSpec(f, old(roots[..]), v, depth)
    decreases if depth <= DEPTH_LIMIT then DEPTH_LIMIT - depth else 0
  {
    if roots[v].Some? { return roots[v].value; }
    r := Unknown;
    match f.values[v] {
      case GlobalRef(g) => r := Global(g);
      case FromInst(i) =>
        if depth < DEPTH_LIMIT && i < |f.insts| {
          var inst := f.insts[i];
          if inst.kind.Alloca? {
            var escapes := SlotEscapes(f, v);
            r := if escapes then Unknown else Stack(i);
          } else if Derives(inst.kind) && inst.operands != [] {
            assert WellFormedInst(f, i);
            r := Resolve(f, inst.operands[0], roots, depth + 1);
          }
        }
      case _ =>
    }
    roots[v] := Some(r);
  }

  /** The memory root of every value. */
  method ComputeRoots(f: Function) returns (roots: seq<Option<MemRoot>>)
    requires WellFormedFunction(f)
    ensures roots == RootsSpec(f, |f.values|)
  {
    var memo := new Option<MemRoot>[|f.values|](_ => None);
    assert memo[..] == RootsSpec(f, 0);
    for i := 0 to |f.values|
      invariant memo[..] == RootsSpec(f, i)
    {
      var _ := Resolve(f, i, memo, 0);
    }
    roots := memo[..];
  }

  /** Each derived pointer has a larger index than the pointer it derives from,
      as the builder hands them out. */
  ghost predicate OperandsPrecede(f: Function) {
    forall v: nat, i: nat | v < |f.values| && f.values[v] == FromInst(i) && i < |f.insts| ::
      Derives(f.insts[i].kind) && f.insts[i].operands != [] ==> f.insts[i].operands[0] < v
  }

  // ----------------------------------------------------------- memory summary

  /** Which memory may hold a secret. */
  datatype MemState = MemState(stack: seq<bool>, globals: seq<bool>, storedGlobal: bool, unknown: bool)
  {
    predicate RootSecret(root: MemRoot) {
      match root
      case Stack(i) => i < |stack| && stack[i]
      case Global(g) => g < |globals| && globals[g]
      case Unknown => unknown || storedGlobal
    }

    function Tainted(root: MemRoot): MemState {
      match root
      case Stack(i) => if i < |stack| then this.(stack := stack[i := true]) else this
      case Global(g) =>
        if g < |globals| then this.(globals := globals[g := true], storedGlobal := true) else this.(storedGlobal := true)
      case Unknown => this.(unknown := true)
    }

    /** `other` records at least what this does. */
    ghost predicate Within(other: MemState) {
      && |stack| == |other.stack| && |globals| == |other.globals|
      && (forall i :: 0 <= i < |stack| && stack[i] ==> other.stack[i])
      && (forall g :: 0 <= g < |globals| && globals[g] ==> other.globals[g])
      && (storedGlobal ==> other.storedGlobal) && (unknown ==> other.unknown)
    }
  }

  /** What instruction `i` adds to the summary. */
  function SummarizeInst(f: Function, vals: seq<Taint>, roots: seq<Option<MemRoot>>, mem: MemState, i: nat): MemState {
    if i >= |f.insts| then mem
    else
      var ops := f.insts[i].operands;
      match f.insts[i].kind
      case Store(flagged) =>
        if |ops| >= 2 && (flagged || IsSecret(vals, ops[1])) then mem.Tainted(RootOf(roots, ops[0])) else mem
      case MemSet => if |ops| >= 2 && IsSecret(vals, ops[1]) then mem.Tainted(RootOf(roots, ops[0])) else mem
      case MemCopy =>
        if |ops| >= 2 && mem.RootSecret(RootOf(roots, ops[1])) then mem.Tainted(RootOf(roots, ops[0])) else mem
      case _ => mem
  }

  predicate IsSecret(vals: seq<Taint>, v: nat) {
    v < |vals| && vals[v] == Secret
  }

  function SummarizeList(f: Function, vals: seq<Taint>, roots: seq<Option<MemRoot>>, mem: MemState,
                         list: seq<nat>, n: nat): MemState
    requires n <= |list|
  {
    if n == 0 then mem else SummarizeInst(f, vals, roots, SummarizeList(f, vals, roots, mem, list, n - 1), list[n - 1])
  }

  /** Fold over the instructions of the first `n` blocks, reachable ones only. */
  function SummarizeBlocks(f: Function, s: State<Taint>, roots: seq<Option<MemRoot>>, mem: MemState, n: nat): MemState
    requires n <= |f.blocks|
  {
    if n == 0 then mem
    else
      var m := SummarizeBlocks(f, s, roots, mem, n - 1);
      if n - 1 < |s.exec| && s.exec[n - 1]
      then SummarizeList(f, s.vals, roots, m, f.blocks[n - 1].insts, |f.blocks[n - 1].insts|) else m
  }

  lemma {:induction false} SummarizeListGrows(f: Function, vals: seq<Taint>, roots: seq<Option<MemRoot>>, mem: MemState,
                                              list: seq<nat>, n: nat)
    requires n <= |list|
    ensures mem.Within(SummarizeList(f, vals, roots, mem, list, n))
  {
    if n > 0 { SummarizeListGrows(f, vals, roots, mem, list, n - 1); }
  }

  lemma {:induction false} SummarizeGrows(f: Function, s: State<Taint>, roots: seq<Option<MemRoot>>, mem: MemState, n: nat)
    requires n <= |f.blocks|
    ensures mem.Within(SummarizeBlocks(f, s, roots, mem, n))
  {
    if n > 0 {
      SummarizeGrows(f, s, roots, mem, n - 1);
      var m := SummarizeBlocks(f, s, roots, mem, n - 1);
      SummarizeListGrows(f, s.vals, roots, m, f.blocks[n - 1].insts, |f.blocks[n - 1].insts|);
    }
  }

  lemma WithinAntisymmetric(a: MemState, b: MemState)
    requires a.Within(b) && b.Within(a)
    ensures a == b
  { }

  lemma {:induction false} StableList(f: Function, vals: seq<Taint>, roots: seq<Option<MemRoot>>, mem: MemState,
                                      list: seq<nat>, n: nat, k: nat)
    requires k < n <= |list| && SummarizeList(f, vals, roots, mem, list, n) == mem
    ensures SummarizeInst(f, vals, roots, mem, list[k]) == mem
    decreases n
  {
    var before := SummarizeList(f, vals, roots, mem, list, n - 1);
    SummarizeListGrows(f, vals, roots, mem, list, n - 1);
    assert before.Within(SummarizeInst(f, vals, roots, before, list[n - 1]));
    WithinAntisymmetric(mem, before);
    if k < n - 1 { StableList(f, vals, roots, mem, list, n - 1, k); }
  }

  /** At the fixpoint no instruction of a reachable block adds anything. */
  lemma {:induction false} StableSummary(f: Function, s: State<Taint>, roots: seq<Option<MemRoot>>, mem: MemState,
                                         n: nat, b: nat, k: nat)
    requires b < n <= |f.blocks| && SummarizeBlocks(f, s, roots, mem, n) == mem
    requires b < |s.exec| && s.exec[b] && k < |f.blocks[b].insts|
    ensures SummarizeInst(f, s.vals, roots, mem, f.blocks[b].insts[k]) == mem
    decreases n
  {
    var before := SummarizeBlocks(f, s, roots, mem, n - 1);
    SummarizeGrows(f, s, roots, mem, n - 1);
    SummarizeListGrows(f, s.vals, roots, before, f.blocks[n - 1].insts, |f.blocks[n - 1].insts|);
    WithinAntisymmetric(mem, before);
    if b < n - 1 {
      StableSummary(f, s, roots, mem, n - 1, b, k);
    } else {
      StableList(f, s.vals, roots, mem, f.blocks[b].insts, |f.blocks[b].insts|, k);
    }
  }

  // ------------------------------------------------------------------- hooks

  /** The context of one run: which entry parameters are secret. */
  function SeedHook(f: Function, secretParams: seq<bool>, v: nat): Option<Taint> {
    if v < |f.values| && f.values[v].Param? && f.entry == Some(f.values[v].block)
    then Some(FromSecret(f.values[v].index < |secretParams| && secretParams[f.values[v].index]))
    else Some(Public)
  }

  /** The module facts a transfer needs: loads read the summary. */
  function TransferHook(f: Function, roots: seq<Option<MemRoot>>, mem: MemState, i: nat): Option<Taint> {
    if i >= |f.insts| then None
    else
      var ops := f.insts[i].operands;
      match f.insts[i].kind
      case Load(secret) =>
        Some(FromSecret(secret || mem.RootSecret(if ops == [] then Unknown else RootOf(roots, ops[0]))))
      case Alloca => Some(Public)
      case _ => None
  }

  /** The context-free transfer: the join of the operands, except that a
      declassification is public. */
  function TaintTransfer(f: Function, i: nat, ts: seq<Taint>): Taint {
    if i < |f.insts| && f.insts[i].kind.Declassify? then Public
    else if i < |f.insts| && f.insts[i].kind == Load(true) then Secret
    else JoinAll(ts)
  }

  function TaintDomain(f: Function, secretParams: seq<bool>, roots: seq<Option<MemRoot>>, mem: MemState): Domain<Taint> {
    Domain(Bottom, Secret, Join, Join, (a: Taint, b: Taint) => a.Rank() <= b.Rank(), (c: int) => Public,
           (i, ts) => TaintTransfer(f, i, ts), (t, g) => true,
           v => SeedHook(f, secretParams, v), (i, ts) => TransferHook(f, roots, mem, i))
  }

  function TaintHeight(t: Taint): nat {
    2 - t.Rank()
  }

  lemma JoinAllMonotone(a: seq<Taint>, b: seq<Taint>)
    requires |a| == |b| && forall k :: 0 <= k < |a| ==> a[k].Rank() <= b[k].Rank()
    ensures JoinAll(a).Rank() <= JoinAll(b).Rank()
  {
    if k :| 0 <= k < |a| && a[k] == Secret { assert b[k] == Secret; }
  }

  /** The taint lattice obeys every law the solver's results rest on. */
  lemma TaintLaws(f: Function, secretParams: seq<bool>, roots: seq<Option<MemRoot>>, mem: MemState)
    ensures Laws(TaintDomain(f, secretParams, roots, mem))
    ensures FiniteHeight(TaintDomain(f, secretParams, roots, mem), TaintHeight)
  {
    var dom := TaintDomain(f, secretParams, roots, mem);
    forall i: nat, a: seq<Taint>, b: seq<Taint> | PointwiseLe(dom, a, b) ensures dom.le(dom.Apply(i, a), dom.Apply(i, b)) {
      JoinAllMonotone(a, b);
    }
  }

  // ---------------------------------------------------------------- the analysis

  function InitialMem(f: Function, secretGlobals: seq<bool>): MemState {
    MemState(seq(|f.insts|, _ => false), secretGlobals, false, false)
  }

  /** A taint assignment and a memory summary that explain each other: the taints
      solve the equations for the summary's hooks, and no reachable instruction adds
      to the summary. */
  ghost predicate IsTaintSolution(f: Function, secretParams: seq<bool>, secretGlobals: seq<bool>,
                                  roots: seq<Option<MemRoot>>, mem: MemState, p: Problem<Taint>, s: State<Taint>) {
    && p.f == f && p.dom == TaintDomain(f, secretParams, roots, mem) && IsSolution(p, s)
    && SummarizeBlocks(f, s, roots, mem, |f.blocks|) == mem
    && InitialMem(f, secretGlobals).Within(mem)
  }

  /** The least such pair. */
  ghost predicate IsTaintFixpoint(f: Function, secretParams: seq<bool>, secretGlobals: seq<bool>,
                                  roots: seq<Option<MemRoot>>, mem: MemState, p: Problem<Taint>, s: State<Taint>) {
    && IsTaintSolution(f, secretParams, secretGlobals, roots, mem, p, s)
    && (forall sol: State<Taint> :: IsSolution(p, sol) ==> Below(p, s, sol))
    && (forall mem': MemState, q: Problem<Taint>, t: State<Taint> ::
          IsTaintSolution(f, secretParams, secretGlobals, roots, mem', q, t) ==> mem.Within(mem') && Below(p, s, t))
  }

  lemma WithinTrans(a: MemState, b: MemState, c: MemState)
    requires a.Within(b) && b.Within(c)
    ensures a.Within(c)
  { }

  /** `t` calls secret all that `s` does, and reaches all that `s` does. */
  ghost predicate TaintsWithin(s: State<Taint>, t: State<Taint>) {
    && |s.vals| == |t.vals| && |s.exec| == |t.exec|
    && (forall v: nat :: v < |s.vals| && s.vals[v] == Secret ==> t.vals[v] == Secret)
    && (forall b: nat :: b < |s.exec| && s.exec[b] ==> t.exec[b])
  }

  lemma TaintedWithin(mem: MemState, mem': MemState, root: MemRoot)
    requires mem.Within(mem')
    ensures mem.Tainted(root).Within(mem'.Tainted(root)) && mem'.Within(mem'.Tainted(root))
    ensures mem.RootSecret(root) ==> mem'.RootSecret(root)
  { }

  lemma SummarizeInstMonotone(f: Function, s: State<Taint>, t: State<Taint>, roots: seq<Option<MemRoot>>,
                              mem: MemState, mem': MemState, i: nat)
    requires mem.Within(mem') && TaintsWithin(s, t)
    ensures SummarizeInst(f, s.vals, roots, mem, i).Within(SummarizeInst(f, t.vals, roots, mem', i))
  {
    if i < |f.insts| && f.insts[i].operands != [] {
      var ops := f.insts[i].operands;
      TaintedWithin(mem, mem', RootOf(roots, ops[0]));
      WithinTrans(mem, mem', mem'.Tainted(RootOf(roots, ops[0])));
      if |ops| > 1 { TaintedWithin(mem, mem', RootOf(roots, ops[1])); }
    }
  }

  lemma {:induction false} SummarizeListMonotone(f: Function, s: State<Taint>, t: State<Taint>, roots: seq<Option<MemRoot>>,
                                                 mem: MemState, mem': MemState, list: seq<nat>, n: nat)
    requires n <= |list| && mem.Within(mem') && TaintsWithin(s, t)
    ensures SummarizeList(f, s.vals, roots, mem, list, n).Within(SummarizeList(f, t.vals, roots, mem', list, n))
  {
    hide SummarizeInst, TaintsWithin;
    if n > 0 {
      SummarizeListMonotone(f, s, t, roots, mem, mem', list, n - 1);
      SummarizeInstMonotone(f, s, t, roots, SummarizeList(f, s.vals, roots, mem, list, n - 1),
                            SummarizeList(f, t.vals, roots, mem', list, n - 1), list[n - 1]);
    }
  }

  lemma {:induction false} SummarizeMonotone(f: Function, s: State<Taint>, t: State<Taint>, roots: seq<Option<MemRoot>>,
                                             mem: MemState, mem': MemState, n: nat)
    requires n <= |f.blocks| && mem.Within(mem') && TaintsWithin(s, t)
    ensures SummarizeBlocks(f, s, roots, mem, n).Within(SummarizeBlocks(f, t, roots, mem', n))
  {
    hide SummarizeList;
    if n > 0 {
      SummarizeMonotone(f, s, t, roots, mem, mem', n - 1);
      var m, m' := SummarizeBlocks(f, s, roots, mem, n - 1), SummarizeBlocks(f, t, roots, mem', n - 1);
      var list := f.blocks[n - 1].insts;
      SummarizeListMonotone(f, s, t, roots, m, m', list, |list|);
      SummarizeListGrows(f, t.vals, roots, m', list, |list|);
      WithinTrans(m, m', SummarizeList(f, t.vals, roots, m', list, |list|));
    }
  }

  /** More tainted memory only adds to the equations: their solutions solve those for
      less. */
  lemma LargerMemSolves(f: Function, secretParams: seq<bool>, roots: seq<Option<MemRoot>>, mem: MemState, mem': MemState,
                        p: Problem<Taint>, q: Problem<Taint>, t: State<Taint>)
    requires p.f == q.f == f && p.dom == TaintDomain(f, secretParams, roots, mem)
    requires q.dom == TaintDomain(f, secretParams, roots, mem')
    requires ProblemOk(p) && IsSolution(q, t) && mem.Within(mem')
    ensures IsSolution(p, t)
  {
    hide WellFormedFunction, ProblemOk;
    SameSized(p, q, t);
    forall i: nat, b: nat | i < |f.insts| && Placed(f, i, b) && t.exec[b] ensures Absorbed(p, t, i, b) {
      assert Absorbed(q, t, i, b);
      InstInRange(p, i);
      if f.insts[i].kind.IsTerminator() {
        SameTermOk(p, q, t, b, f.insts[i]);
      } else if f.insts[i].result.Some? {
        var ops := Operands(p, t, f.insts[i].operands);
        assert ops == Operands(q, t, f.insts[i].operands);
        LessTransfer(f, roots, mem, mem', i);
      }
    }
  }

  lemma SameSized(p: Problem<Taint>, q: Problem<Taint>, t: State<Taint>)
    requires p.f == q.f && Sized(q, t)
    ensures Sized(p, t)
  { }

  lemma InstInRange(p: Problem<Taint>, i: nat)
    requires ProblemOk(p) && i < |p.f.insts|
    ensures OperandsFit(p.f.insts[i])
    ensures p.f.insts[i].result.Some? ==> p.f.insts[i].result.value < |p.f.values|
  {
    assert WellFormedInst(p.f, i);
  }

  /** Which edges are taken, and what they pass, does not depend on the hooks. */
  lemma SameTermOk(p: Problem<Taint>, q: Problem<Taint>, t: State<Taint>, b: nat, inst: Inst)
    requires p.f == q.f && p.dom.le == q.dom.le && p.dom.top == q.dom.top && p.dom.edgeFeasible == q.dom.edgeFeasible
    requires OperandsFit(inst) && TermOk(q, t, b, inst)
    ensures TermOk(p, t, b, inst)
  {
    forall si: nat | si < EdgeCount(inst.kind) && Feasible(p, t, inst, si) ensures EdgeOk(p, t, b, inst, si) {
      assert Feasible(q, t, inst, si) && EdgeOk(q, t, b, inst, si);
      forall k: nat | k < |ParamsOf(p, Target(inst, si))|
        ensures p.dom.le(ArgVal(p, t, inst, si, k), SolverSteps.Val(p, t, ParamsOf(p, Target(inst, si))[k]))
      {
        assert p.dom.le(ArgVal(q, t, inst, si, k), SolverSteps.Val(q, t, ParamsOf(q, Target(inst, si))[k]));
      }
    }
  }

  lemma LessTransfer(f: Function, roots: seq<Option<MemRoot>>, mem: MemState, mem': MemState, i: nat)
    requires mem.Within(mem')
    ensures match TransferHook(f, roots, mem', i)
            case None => TransferHook(f, roots, mem, i) == None
            case Some(d) => TransferHook(f, roots, mem, i).Some? && TransferHook(f, roots, mem, i).value.Rank() <= d.Rank()
  {
    if i < |f.insts| && f.insts[i].operands != [] { TaintedWithin(mem, mem', RootOf(roots, f.insts[i].operands[0])); }
    TaintedWithin(mem, mem', Unknown);
  }

  /** The summary of a least solution stays below every pair's. */
  lemma NextStaysLeast(f: Function, secretParams: seq<bool>, secretGlobals: seq<bool>, roots: seq<Option<MemRoot>>,
                       mem: MemState, p: Problem<Taint>, s: State<Taint>, mem': MemState, q: Problem<Taint>, t: State<Taint>)
    requires p.f == f && p.dom == TaintDomain(f, secretParams, roots, mem) && IsSolution(p, s)
    requires forall sol: State<Taint> :: IsSolution(p, sol) ==> Below(p, s, sol)
    requires IsTaintSolution(f, secretParams, secretGlobals, roots, mem', q, t) && mem.Within(mem')
    ensures Below(p, s, t) && SummarizeBlocks(f, s, roots, mem, |f.blocks|).Within(mem')
  {
    hide IsSolution, ProblemOk, TaintDomain, SummarizeBlocks;
    SolutionOk(p, s);
    LargerMemSolves(f, secretParams, roots, mem, mem', p, q, t);
    BelowIsWithin(f, secretParams, roots, mem, p, s, t);
    SummarizeMonotone(f, s, t, roots, mem, mem', |f.blocks|);
  }

  lemma SolutionOk(p: Problem<Taint>, s: State<Taint>)
    requires IsSolution(p, s)
    ensures ProblemOk(p)
  { }

  lemma BelowIsWithin(f: Function, secretParams: seq<bool>, roots: seq<Option<MemRoot>>, mem: MemState,
                      p: Problem<Taint>, s: State<Taint>, t: State<Taint>)
    requires p.dom == TaintDomain(f, secretParams, roots, mem) && Below(p, s, t)
    ensures TaintsWithin(s, t)
  { }

  ghost function BitsLeft(bits: seq<bool>): nat {
    BlocksLeft(bits)
  }

  ghost function MemLeft(mem: MemState): nat {
    BitsLeft(mem.stack) + BitsLeft(mem.globals) + (if mem.storedGlobal then 0 else 1) + (if mem.unknown then 0 else 1)
  }

  lemma {:induction false} BitsLeftShrink(a: seq<bool>, b: seq<bool>)
    requires |a| == |b| && forall i :: 0 <= i < |a| && a[i] ==> b[i]
    ensures BitsLeft(b) <= BitsLeft(a) && (BitsLeft(a) == BitsLeft(b) ==> a == b)
  {
    if a != [] {
      var m := |a| - 1;
      BitsLeftShrink(a[..m], b[..m]);
      assert a == a[..m] + [a[m]] && b == b[..m] + [b[m]];
    }
  }

  /** Iterate solving and summarizing until the summary is stable. */
  method Compute(f: Function, secretParams: seq<bool>, secretGlobals: seq<bool>)
    returns (vals: seq<Taint>, reachable: seq<bool>, roots: seq<Option<MemRoot>>, mem: MemState,
             ghost p: Problem<Taint>, ghost s: State<Taint>)
    requires WellFormedFunction(f) && f.entry.Some?
    ensures roots == RootsSpec(f, |f.values|)
    ensures IsTaintFixpoint(f, secretParams, secretGlobals, roots, mem, p, s) && s.vals == vals && s.exec == reachable
  {
    hide IsSolution, Below, Laws, WellFormedFunction;
    roots := ComputeRoots(f);
    mem := InitialMem(f, secretGlobals);
    while true
      invariant InitialMem(f, secretGlobals).Within(mem)
      invariant forall mem': MemState, q: Problem<Taint>, t: State<Taint> ::
                  IsTaintSolution(f, secretParams, secretGlobals, roots, mem', q, t) ==> mem.Within(mem')
      decreases MemLeft(mem)
    {
      TaintLaws(f, secretParams, roots, mem);
      var engine := new Engine<Taint>(f, TaintDomain(f, secretParams, roots, mem));
      engine.Run(ByHeight(TaintHeight));
      vals, reachable := engine.vals, engine.blockExec;
      p, s := engine.p, engine.St();
      var next := SummarizeMemory(f, vals, reachable, roots, mem, s);
      SummarizeGrows(f, s, roots, mem, |f.blocks|);
      forall mem': MemState, q: Problem<Taint>, t: State<Taint>
        | IsTaintSolution(f, secretParams, secretGlobals, roots, mem', q, t)
        ensures Below(p, s, t) && next.Within(mem')
      {
        NextStaysLeast(f, secretParams, secretGlobals, roots, mem, p, s, mem', q, t);
      }
      if next == mem { return; }
      BitsLeftShrink(mem.stack, next.stack);
      BitsLeftShrink(mem.globals, next.globals);
      mem := next;
    }
  }

  /** One pass over the reachable instructions, adding to the summary. */
  method SummarizeMemory(f: Function, vals: seq<Taint>, reachable: seq<bool>, roots: seq<Option<MemRoot>>,
                         prev: MemState, ghost s: State<Taint>)
    returns (mem: MemState)
    requires s.vals == vals && s.exec == reachable
    ensures mem == SummarizeBlocks(f, s, roots, prev, |f.blocks|)
  {
    mem := prev;
    for b := 0 to |f.blocks|
      invariant mem == SummarizeBlocks(f, s, roots, prev, b)
    {
      if b < |reachable| && reachable[b] {
        var list := f.blocks[b].insts;
        ghost var start := mem;
        for k := 0 to |list|
          invariant mem == SummarizeList(f, vals, roots, start, list, k)
        {
          mem := SummarizeInst(f, vals, roots, mem, list[k]);
        }
      }
    }
  }
}
