/** Why anything is called secret: a value or a place in memory is, exactly when a finite
    chain of loads, stores, copies and operands leads back to something declared so. */
module SecretCauses {
  import opened Wrappers
  import opened Ir
  import opened SolverSteps
  import opened SolverSound
  import opened SolverLeast
  import opened Secret

  /** A function, what is declared secret of it, where its pointers lead, and which of its
      blocks are reached. */
  datatype Setup = Setup(f: Function, secretParams: seq<bool>, secretGlobals: seq<bool>,
                         roots: seq<Option<MemRoot>>, reached: seq<bool>)

  /** A place in memory: a stack slot, a global, some global, or what is not known. */
  datatype Spot = Slot(inst: nat) | Glob(global: nat) | SomeGlobal | Elsewhere

  ghost function Leads(a: Setup, v: nat): MemRoot {
    if v < |a.roots| && a.roots[v].Some? then a.roots[v].value else Unknown
  }

  /** The places that a write through a pointer may reach. */
  ghost predicate Writes(a: Setup, root: MemRoot, x: Spot) {
    match root
    case Stack(i) => i < |a.f.insts| && x == Slot(i)
    case Global(g) => (g < |a.secretGlobals| && x == Glob(g)) || x == SomeGlobal
    case Unknown => x == Elsewhere
  }

  /** Those that a read may. */
  ghost predicate Reads(a: Setup, root: MemRoot, x: Spot) {
    match root
    case Stack(i) => i < |a.f.insts| && x == Slot(i)
    case Global(g) => g < |a.secretGlobals| && x == Glob(g)
    case Unknown => x == Elsewhere || x == SomeGlobal
  }

  ghost predicate Reached(a: Setup, b: nat) {
    b < |a.f.blocks| && b < |a.reached| && a.reached[b]
  }

  ghost predicate InReach(a: Setup, i: nat) {
    i < |a.f.insts| && exists b: nat :: Reached(a, b) && i in a.f.blocks[b].insts
  }

  /** An edge from block `q` to `b` leaves parameter `index` without an argument. */
  ghost predicate LeavesOut(f: Function, q: nat, si: nat, b: nat, index: nat) {
    && q < |f.blocks| && f.blocks[q].term.Some? && f.blocks[q].term.value < |f.insts|
    && var t := f.insts[f.blocks[q].term.value];
       HasEdge(t.kind, si) && EdgeTo(t.kind, si) == b && index >= ArgNum(t, si)
  }

  ghost function LoadsFrom(a: Setup, i: nat): MemRoot
    requires i < |a.f.insts|
  {
    if a.f.insts[i].operands == [] then Unknown else Leads(a, a.f.insts[i].operands[0])
  }

  ghost predicate IsParam(f: Function, v: nat, b: nat, index: nat) {
    b < |f.blocks| && index < |f.blocks[b].params| && f.blocks[b].params[index] == v
  }

  // ------------------------------------------------------------------- chains

  /** A chain of at most `n` steps makes `v` secret. It begins at a secret parameter of the
      entry, at a secret load, or at an edge that leaves a parameter out; a load goes back
      to the memory it reads, a block's parameter to an argument, any other result but a
      declassified one to an operand. */
  ghost predicate SecretBy(a: Setup, v: nat, n: nat)
    decreases n, 2
  {
    v < |a.f.values| &&
    match a.f.values[v]
    case Param(b, index) =>
      || (a.f.entry == Some(b) && index < |a.secretParams| && a.secretParams[index])
      || (IsParam(a.f, v, b, index) && exists q: nat, si: nat :: Reached(a, q) && LeavesOut(a.f, q, si, b, index))
      || (IsParam(a.f, v, b, index) && n > 0 && exists q: nat, si: nat, w: nat ::
            Reached(a, q) && PassesArg(a.f, q, si, b, index, w) && SecretBy(a, w, n - 1))
    case FromInst(i) => InReach(a, i) && a.f.insts[i].result == Some(v) && ResultBy(a, i, n)
    case _ => false
  }

  ghost predicate ResultBy(a: Setup, i: nat, n: nat)
    requires i < |a.f.insts|
    decreases n, 1
  {
    var ops := a.f.insts[i].operands;
    match a.f.insts[i].kind
    case Load(secret) =>
      secret || (n > 0 && exists x: Spot :: Reads(a, LoadsFrom(a, i), x) && TaintedBy(a, x, n - 1))
    case Alloca => false
    case Declassify => false
    case _ => n > 0 && exists w: nat :: w in ops && SecretBy(a, w, n - 1)
  }

  /** A chain of at most `n` steps taints the place `x`: it is a global declared secret, or
      a reached instruction writes there: a store flagged secret, a store or fill of a
      secret value, a copy from a tainted place. */
  ghost predicate TaintedBy(a: Setup, x: Spot, n: nat)
    decreases n, 2
  {
    || (x.Glob? && x.global < |a.secretGlobals| && a.secretGlobals[x.global])
    || exists i: nat :: InReach(a, i) && WritesBy(a, i, x, n)
  }

  ghost predicate WritesBy(a: Setup, i: nat, x: Spot, n: nat)
    requires i < |a.f.insts|
    decreases n, 1
  {
    var ops := a.f.insts[i].operands;
    && |ops| >= 2 && Writes(a, Leads(a, ops[0]), x)
    && match a.f.insts[i].kind
       case Store(flagged) => flagged || (n > 0 && SecretBy(a, ops[1], n - 1))
       case MemSet => n > 0 && SecretBy(a, ops[1], n - 1)
       case MemCopy => n > 0 && exists y: Spot :: Reads(a, Leads(a, ops[1]), y) && TaintedBy(a, y, n - 1)
       case _ => false
  }

  ghost predicate Derived(a: Setup, v: nat) {
    exists n: nat :: SecretBy(a, v, n)
  }

  ghost predicate Marked(a: Setup, x: Spot) {
    exists n: nat :: TaintedBy(a, x, n)
  }

  /** The summary has `x`. */
  ghost predicate Has(mem: MemState, x: Spot) {
    match x
    case Slot(i) => i < |mem.stack| && mem.stack[i]
    case Glob(g) => g < |mem.globals| && mem.globals[g]
    case SomeGlobal => mem.storedGlobal
    case Elsewhere => mem.unknown
  }

  // ------------------------------------------------------------- one step of a chain

  ghost predicate IsResult(a: Setup, v: nat, i: nat) {
    v < |a.f.values| && a.f.values[v] == FromInst(i) && InReach(a, i) && a.f.insts[i].result == Some(v)
  }

  lemma ArgumentDerives(a: Setup, v: nat, b: nat, index: nat, q: nat, si: nat, w: nat)
    requires v < |a.f.values| && a.f.values[v] == Param(b, index) && IsParam(a.f, v, b, index)
    requires Reached(a, q) && PassesArg(a.f, q, si, b, index, w) && Derived(a, w)
    ensures Derived(a, v)
  {
    hide PassesArg, Reached;
    var n: nat :| SecretBy(a, w, n);
    assert SecretBy(a, v, n + 1);
  }

  lemma OperandDerives(a: Setup, v: nat, i: nat, w: nat)
    requires IsResult(a, v, i) && w in a.f.insts[i].operands && Derived(a, w)
    requires !a.f.insts[i].kind.Load? && !a.f.insts[i].kind.Alloca? && !a.f.insts[i].kind.Declassify?
    ensures Derived(a, v)
  {
    hide Reached;
    var n: nat :| SecretBy(a, w, n);
    assert ResultBy(a, i, n + 1);
    assert SecretBy(a, v, n + 1);
  }

  lemma LoadDerives(a: Setup, v: nat, i: nat, x: Spot)
    requires IsResult(a, v, i) && a.f.insts[i].kind.Load? && Marked(a, x)
    requires Reads(a, LoadsFrom(a, i), x)
    ensures Derived(a, v)
  {
    hide Reached, Reads, LoadsFrom;
    var n: nat :| TaintedBy(a, x, n);
    assert ResultBy(a, i, n + 1);
    assert SecretBy(a, v, n + 1);
  }

  lemma StoreMarks(a: Setup, i: nat, x: Spot)
    requires InReach(a, i) && |a.f.insts[i].operands| >= 2 && Writes(a, Leads(a, a.f.insts[i].operands[0]), x)
    requires a.f.insts[i].kind.Store? || a.f.insts[i].kind.MemSet?
    requires a.f.insts[i].kind == Store(true) || Derived(a, a.f.insts[i].operands[1])
    ensures Marked(a, x)
  {
    hide Reached, Writes, Leads;
    if a.f.insts[i].kind == Store(true) {
      assert WritesBy(a, i, x, 0);
      assert TaintedBy(a, x, 0);
    } else {
      var n: nat :| SecretBy(a, a.f.insts[i].operands[1], n);
      assert WritesBy(a, i, x, n + 1);
      assert TaintedBy(a, x, n + 1);
    }
  }

  lemma CopyMarks(a: Setup, i: nat, x: Spot, y: Spot)
    requires InReach(a, i) && |a.f.insts[i].operands| >= 2 && a.f.insts[i].kind.MemCopy?
    requires Writes(a, Leads(a, a.f.insts[i].operands[0]), x) && Reads(a, Leads(a, a.f.insts[i].operands[1]), y) && Marked(a, y)
    ensures Marked(a, x)
  {
    hide Reached, Writes, Reads, Leads;
    var n: nat :| TaintedBy(a, y, n);
    assert WritesBy(a, i, x, n + 1);
    assert TaintedBy(a, x, n + 1);
  }

  // ------------------------------------------------------ what chains account for

  /** Of the summary, what a chain taints. */
  ghost function Kept(a: Setup, mem: MemState): (r: MemState)
    ensures |r.stack| == |mem.stack| && |r.globals| == |mem.globals| && r.Within(mem)
    ensures forall x: Spot :: Has(r, x) <==> Has(mem, x) && Marked(a, x)
  {
    MemState(seq(|mem.stack|, i requires 0 <= i < |mem.stack| => mem.stack[i] && Marked(a, Slot(i))),
             seq(|mem.globals|, g requires 0 <= g < |mem.globals| => mem.globals[g] && Marked(a, Glob(g))),
             mem.storedGlobal && Marked(a, SomeGlobal), mem.unknown && Marked(a, Elsewhere))
  }

  /** Of the secret values, those that a chain makes so; the others public. */
  ghost function Pruned(a: Setup, s: State<Taint>): (t: State<Taint>)
    ensures t.exec == s.exec && t.edges == s.edges && t.blockWl == s.blockWl && t.ssaWl == s.ssaWl && |t.vals| == |s.vals|
    ensures forall v: nat :: v < |t.vals| ==> t.vals[v] == if s.vals[v] == Taint.Secret && !Derived(a, v) then Public else s.vals[v]
  {
    s.(vals := seq(|s.vals|, v requires 0 <= v < |s.vals| => if s.vals[v] == Taint.Secret && !Derived(a, v) then Public else s.vals[v]))
  }

  ghost predicate Solution(a: Setup, mem: MemState, p: Problem<Taint>, s: State<Taint>) {
    IsTaintSolution(a.f, a.secretParams, a.secretGlobals, a.roots, mem, p, s) && a.reached == s.exec
  }

  ghost predicate MemFits(a: Setup, mem: MemState) {
    |mem.stack| == |a.f.insts| && |mem.globals| == |a.secretGlobals|
  }

  lemma ReadsMean(a: Setup, mem: MemState, root: MemRoot)
    requires MemFits(a, mem)
    ensures mem.RootSecret(root) <==> exists x: Spot :: Reads(a, root, x) && Has(mem, x)
  {
    match root
    case Stack(i) => if mem.RootSecret(root) { assert Reads(a, root, Slot(i)) && Has(mem, Slot(i)); }
    case Global(g) => if mem.RootSecret(root) { assert Reads(a, root, Glob(g)) && Has(mem, Glob(g)); }
    case Unknown =>
      if mem.unknown { assert Reads(a, root, Elsewhere) && Has(mem, Elsewhere); }
      if mem.storedGlobal { assert Reads(a, root, SomeGlobal) && Has(mem, SomeGlobal); }
  }

  lemma WritesMean(a: Setup, mem: MemState, root: MemRoot)
    requires MemFits(a, mem)
    ensures mem.Tainted(root) == mem <==> forall x: Spot :: Writes(a, root, x) ==> Has(mem, x)
  {
    match root
    case Stack(i) =>
      if i < |mem.stack| {
        assert Writes(a, root, Slot(i));
        if mem.stack[i] { assert mem.stack[i := true] == mem.stack; } else { assert mem.Tainted(root).stack[i]; }
      }
    case Global(g) =>
      assert Writes(a, root, SomeGlobal);
      if g < |mem.globals| {
        assert Writes(a, root, Glob(g));
        if mem.globals[g] { assert mem.globals[g := true] == mem.globals; } else { assert mem.Tainted(root).globals[g]; }
      }
    case Unknown => assert Writes(a, root, Elsewhere);
  }

  lemma LeadsIs(a: Setup, v: nat)
    ensures Leads(a, v) == RootOf(a.roots, v)
  { }

  lemma SolutionFits(a: Setup, mem: MemState, p: Problem<Taint>, s: State<Taint>)
    requires Solution(a, mem, p, s)
    ensures MemFits(a, mem) && MemFits(a, Kept(a, mem)) && InitialMem(a.f, a.secretGlobals).Within(Kept(a, mem))
  {
    hide WellFormedFunction, IsSolution, SummarizeBlocks;
    forall g | 0 <= g < |a.secretGlobals| && a.secretGlobals[g] ensures Kept(a, mem).globals[g] {
      assert TaintedBy(a, Glob(g), 0);
      assert Has(mem, Glob(g));
      assert Has(Kept(a, mem), Glob(g));
    }
  }

  /** A reached instruction adds nothing to the summary that it is part of. */
  lemma InstStable(a: Setup, mem: MemState, p: Problem<Taint>, s: State<Taint>, i: nat)
    requires Solution(a, mem, p, s) && InReach(a, i)
    ensures SummarizeInst(a.f, s.vals, a.roots, mem, i) == mem
  {
    hide IsSolution, SummarizeBlocks, SummarizeInst;
    var b: nat :| Reached(a, b) && i in a.f.blocks[b].insts;
    var k :| 0 <= k < |a.f.blocks[b].insts| && a.f.blocks[b].insts[k] == i;
    StableSummary(a.f, s, a.roots, mem, |a.f.blocks|, b, k);
  }

  lemma PrunedSecret(a: Setup, s: State<Taint>, v: nat)
    requires IsSecret(Pruned(a, s).vals, v)
    ensures IsSecret(s.vals, v) && Derived(a, v)
  { }

  /** Nor to the part of it that chains account for. */
  lemma InstAddsNothing(a: Setup, mem: MemState, p: Problem<Taint>, s: State<Taint>, i: nat)
    requires Solution(a, mem, p, s) && InReach(a, i)
    ensures SummarizeInst(a.f, Pruned(a, s).vals, a.roots, Kept(a, mem), i) == Kept(a, mem)
  {
    hide Solution, Kept, Pruned, Derived, Marked, InReach, Reads, Writes, Leads, IsSecret;
    SolutionFits(a, mem, p, s);
    InstStable(a, mem, p, s, i);
    InReachInst(a, i);
    var t, kept, ops := Pruned(a, s), Kept(a, mem), a.f.insts[i].operands;
    if |ops| >= 2 {
      var root := RootOf(a.roots, ops[0]);
      LeadsIs(a, ops[0]);
      WritesMean(a, mem, root);
      WritesMean(a, kept, root);
      match a.f.insts[i].kind
      case Store(flagged) =>
        if flagged || IsSecret(t.vals, ops[1]) {
          if !flagged { PrunedSecret(a, s, ops[1]); }
          forall x: Spot | Writes(a, root, x) ensures Has(kept, x) { StoreMarks(a, i, x); }
        }
      case MemSet =>
        if IsSecret(t.vals, ops[1]) {
          PrunedSecret(a, s, ops[1]);
          forall x: Spot | Writes(a, root, x) ensures Has(kept, x) { StoreMarks(a, i, x); }
        }
      case MemCopy =>
        LeadsIs(a, ops[1]);
        ReadsMean(a, kept, RootOf(a.roots, ops[1]));
        ReadsMean(a, mem, RootOf(a.roots, ops[1]));
        if y: Spot :| Reads(a, RootOf(a.roots, ops[1]), y) && Has(kept, y) {
          forall x: Spot | Writes(a, root, x) ensures Has(kept, x) { CopyMarks(a, i, x, y); }
        }
      case _ =>
    }
  }

  lemma InReachInst(a: Setup, i: nat)
    requires InReach(a, i)
    ensures i < |a.f.insts|
  { }

  lemma {:induction false} ListAddsNothing(f: Function, vals: seq<Taint>, roots: seq<Option<MemRoot>>, mem: MemState,
                                           list: seq<nat>, n: nat)
    requires n <= |list| && forall i :: i in list ==> SummarizeInst(f, vals, roots, mem, i) == mem
    ensures SummarizeList(f, vals, roots, mem, list, n) == mem
  {
    hide SummarizeInst;
    if n > 0 {
      ListAddsNothing(f, vals, roots, mem, list, n - 1);
      assert list[n - 1] in list;
    }
  }

  lemma {:induction false} BlocksAddNothing(f: Function, s: State<Taint>, roots: seq<Option<MemRoot>>, mem: MemState, n: nat)
    requires n <= |f.blocks|
    requires forall b: nat, i: nat :: b < |f.blocks| && b < |s.exec| && s.exec[b] && i in f.blocks[b].insts ==>
               SummarizeInst(f, s.vals, roots, mem, i) == mem
    ensures SummarizeBlocks(f, s, roots, mem, n) == mem
  {
    hide SummarizeInst, SummarizeList;
    if n > 0 {
      BlocksAddNothing(f, s, roots, mem, n - 1);
      if n - 1 < |s.exec| && s.exec[n - 1] { ListAddsNothing(f, s.vals, roots, mem, f.blocks[n - 1].insts, |f.blocks[n - 1].insts|); }
    }
  }

  lemma KeptStable(a: Setup, mem: MemState, p: Problem<Taint>, s: State<Taint>)
    requires Solution(a, mem, p, s)
    ensures SummarizeBlocks(a.f, Pruned(a, s), a.roots, Kept(a, mem), |a.f.blocks|) == Kept(a, mem)
  {
    hide SummarizeBlocks, SummarizeInst, IsSolution, WellFormedFunction;
    var t, kept := Pruned(a, s), Kept(a, mem);
    SolutionParts(a, mem, p, s);
    forall b: nat, i: nat | b < |a.f.blocks| && b < |t.exec| && t.exec[b] && i in a.f.blocks[b].insts
      ensures SummarizeInst(a.f, t.vals, a.roots, kept, i) == kept
    {
      BodyInRange(p, b, i);
      assert Reached(a, b);
      InstAddsNothing(a, mem, p, s, i);
    }
    BlocksAddNothing(a.f, t, a.roots, kept, |a.f.blocks|);
  }

  lemma BodyInRange(p: Problem<Taint>, b: nat, i: nat)
    requires ProblemOk(p) && b < |p.f.blocks| && i in p.f.blocks[b].insts
    ensures i < |p.f.insts| && !p.f.insts[i].kind.IsTerminator()
  {
    assert WellFormedBlock(p.f, b);
  }

  lemma SolutionParts(a: Setup, mem: MemState, p: Problem<Taint>, s: State<Taint>)
    requires Solution(a, mem, p, s)
    ensures p.f == a.f && p.dom == TaintDomain(a.f, a.secretParams, a.roots, mem) && ProblemOk(p) && Sized(p, s)
    ensures IsSolution(p, s) && a.reached == s.exec && p.f.entry.Some? && |a.f.uses| == |a.f.values|
  {
    hide SummarizeBlocks, WellFormedInst, WellFormedBlock;
  }

  // ------------------------------------------------- the pruned pair is a solution

  ghost function PrunedProblem(a: Setup, mem: MemState, p: Problem<Taint>): Problem<Taint> {
    p.(dom := TaintDomain(a.f, a.secretParams, a.roots, Kept(a, mem)))
  }

  /** What an instruction's transfer is, its kind and its operands' taints given. */
  lemma TransferIs(a: Setup, mem: MemState, q: Problem<Taint>, t: State<Taint>, i: nat)
    requires q.f == a.f && q.dom == TaintDomain(a.f, a.secretParams, a.roots, mem) && i < |a.f.insts|
    ensures var ops := a.f.insts[i].operands;
            Transferred(q, t, i)
            == match a.f.insts[i].kind
               case Load(secret) => FromSecret(secret || mem.RootSecret(LoadsFrom(a, i)))
               case Alloca => Public
               case Declassify => Public
               case _ => JoinAll(Operands(q, t, ops))
  {
    hide JoinAll;
    if a.f.insts[i].operands != [] { LeadsIs(a, a.f.insts[i].operands[0]); }
  }

  /** A transfer of pruned taints is secret only where a chain makes the result so. */
  lemma PrunedTransfer(a: Setup, mem: MemState, p: Problem<Taint>, s: State<Taint>, i: nat, r: nat)
    requires Solution(a, mem, p, s) && IsResult(a, r, i)
    ensures Transferred(PrunedProblem(a, mem, p), Pruned(a, s), i) == Taint.Secret ==> Derived(a, r)
  {
    hide Solution, Kept, Pruned, Derived, Marked, InReach, Reads, Leads, LoadsFrom, Transferred, TaintDomain, ProblemOk;
    SolutionParts(a, mem, p, s);
    SolutionFits(a, mem, p, s);
    InReachInst(a, i);
    var q, t, ops := PrunedProblem(a, mem, p), Pruned(a, s), a.f.insts[i].operands;
    TransferIs(a, Kept(a, mem), q, t, i);
    if Transferred(q, t, i) == Taint.Secret {
      if a.f.insts[i].kind.Load? {
        if a.f.insts[i].kind.secret {
          SecretLoadDerives(a, r, i);
        } else {
          ReadsMean(a, Kept(a, mem), LoadsFrom(a, i));
          var x: Spot :| Reads(a, LoadsFrom(a, i), x) && Has(Kept(a, mem), x);
          KeptMarked(a, mem, x);
          LoadDerives(a, r, i, x);
        }
      } else {
        var k :| 0 <= k < |ops| && Operands(q, t, ops)[k] == Taint.Secret;
        OperandInRange(p, s, i, ops[k]);
        PrunedSecret(a, s, ops[k]);
        OperandDerives(a, r, i, ops[k]);
      }
    }
  }

  lemma SecretLoadDerives(a: Setup, v: nat, i: nat)
    requires IsResult(a, v, i) && a.f.insts[i].kind == Load(true)
    ensures Derived(a, v)
  {
    hide Reached;
    assert ResultBy(a, i, 0);
    assert SecretBy(a, v, 0);
  }

  lemma KeptMarked(a: Setup, mem: MemState, x: Spot)
    requires Has(Kept(a, mem), x)
    ensures Marked(a, x) && Has(mem, x)
  { }

  lemma OperandInRange(p: Problem<Taint>, s: State<Taint>, i: nat, v: nat)
    requires ProblemOk(p) && Sized(p, s) && i < |p.f.insts| && v in p.f.insts[i].operands
    ensures v < |p.f.values| == |s.vals|
  {
    assert WellFormedInst(p.f, i);
  }

  /** Pruning lowers transfers. */
  lemma TransferFalls(a: Setup, mem: MemState, p: Problem<Taint>, s: State<Taint>, i: nat)
    requires Solution(a, mem, p, s) && i < |a.f.insts|
    ensures Transferred(PrunedProblem(a, mem, p), Pruned(a, s), i).Rank() <= Transferred(p, s, i).Rank()
  {
    hide Solution, Kept, Pruned, Derived, Marked, LoadsFrom, Transferred, TaintDomain, ProblemOk, JoinAll;
    SolutionParts(a, mem, p, s);
    var q, t, ops := PrunedProblem(a, mem, p), Pruned(a, s), a.f.insts[i].operands;
    TransferIs(a, Kept(a, mem), q, t, i);
    TransferIs(a, mem, p, s, i);
    TaintedWithin(Kept(a, mem), mem, LoadsFrom(a, i));
    TaintLe(a, mem, p, Public, Public);
    TaintLe(a, Kept(a, mem), q, Public, Public);
    forall k | 0 <= k < |ops| ensures Operands(q, t, ops)[k].Rank() <= Operands(p, s, ops)[k].Rank() { PrunedLower(a, p, q, s, ops[k]); }
    JoinAllMonotone(Operands(q, t, ops), Operands(p, s, ops));
  }

  lemma PrunedLower(a: Setup, p: Problem<Taint>, q: Problem<Taint>, s: State<Taint>, v: nat)
    requires p.dom.top == q.dom.top
    ensures SolverSteps.Val(q, Pruned(a, s), v).Rank() <= SolverSteps.Val(p, s, v).Rank()
    ensures SolverSteps.Val(q, Pruned(a, s), v).Rank() < SolverSteps.Val(p, s, v).Rank() ==>
              !Derived(a, v) && SolverSteps.Val(q, Pruned(a, s), v) == Public
    ensures SolverSteps.Val(p, s, v).Rank() <= 2
  { }

  lemma TaintLe(a: Setup, mem: MemState, p: Problem<Taint>, x: Taint, y: Taint)
    requires p.dom == TaintDomain(a.f, a.secretParams, a.roots, mem)
    ensures p.dom.le(x, y) <==> x.Rank() <= y.Rank()
    ensures x.Rank() <= 2 && (x.Rank() == 2 <==> x == Taint.Secret) && p.dom.top == Taint.Secret
  { }

  lemma PrunedResult(a: Setup, mem: MemState, p: Problem<Taint>, s: State<Taint>, i: nat, r: nat)
    requires Solution(a, mem, p, s) && IsResult(a, r, i)
    requires p.dom.le(Transferred(p, s, i), SolverSteps.Val(p, s, r))
    ensures var q, t := PrunedProblem(a, mem, p), Pruned(a, s); q.dom.le(Transferred(q, t, i), SolverSteps.Val(q, t, r))
  {
    hide Solution, Kept, Pruned, Derived, InReach, Transferred, TaintDomain, ProblemOk;
    SolutionParts(a, mem, p, s);
    InReachInst(a, i);
    var q, t := PrunedProblem(a, mem, p), Pruned(a, s);
    PrunedTransfer(a, mem, p, s, i, r);
    TransferFalls(a, mem, p, s, i);
    TaintLe(a, mem, p, Transferred(p, s, i), SolverSteps.Val(p, s, r));
    TaintLe(a, Kept(a, mem), q, Transferred(q, t, i), SolverSteps.Val(q, t, r));
    PrunedLower(a, p, q, s, r);
  }

  /** An argument of an edge that can be taken, or one it leaves out, is below the pruned
      parameter. */
  lemma PrunedArg(a: Setup, mem: MemState, p: Problem<Taint>, s: State<Taint>, b: nat, si: nat, k: nat)
    requires Solution(a, mem, p, s) && Reached(a, b) && a.f.blocks[b].term.Some? && a.f.blocks[b].term.value < |a.f.insts|
    requires var t := a.f.insts[a.f.blocks[b].term.value];
             && OperandsFit(t) && si < EdgeCount(t.kind) && k < |ParamsOf(p, Target(t, si))|
             && (forall v :: v in t.operands ==> v < |s.vals|)
             && p.dom.le(ArgVal(p, s, t, si, k), SolverSteps.Val(p, s, ParamsOf(p, Target(t, si))[k]))
    ensures var q, t, inst := PrunedProblem(a, mem, p), Pruned(a, s), a.f.insts[a.f.blocks[b].term.value];
            q.dom.le(ArgVal(q, t, inst, si, k), SolverSteps.Val(q, t, ParamsOf(q, Target(inst, si))[k]))
  {
    hide Solution, Kept, Pruned, Derived, Reached, TaintDomain, WellFormedFunction, OperandsFit, EdgeArgs, EdgeCount, HasEdge, EdgeTo, ArgFrom,
         ArgNum, Successors;
    SolutionParts(a, mem, p, s);
    ReachedBlock(a, b);
    var q, t, inst := PrunedProblem(a, mem, p), Pruned(a, s), a.f.insts[a.f.blocks[b].term.value];
    var param := ParamsOf(p, Target(inst, si))[k];
    EdgesMean(inst, si);
    ParamPlace(p, Target(inst, si), k);
    TaintLe(a, mem, p, ArgVal(p, s, inst, si, k), SolverSteps.Val(p, s, param));
    TaintLe(a, Kept(a, mem), q, ArgVal(q, t, inst, si, k), SolverSteps.Val(q, t, param));
    PrunedLower(a, p, q, s, param);
    if k < |EdgeArgs(inst, si)| {
      var w := EdgeArgs(inst, si)[k];
      assert w in inst.operands && PassesArg(a.f, b, si, Target(inst, si), k, w);
      PrunedLower(a, p, q, s, w);
      if ArgVal(q, t, inst, si, k) == Taint.Secret {
        PrunedSecret(a, s, w);
        ArgumentDerives(a, param, Target(inst, si), k, b, si, w);
      }
    } else {
      assert LeavesOut(a.f, b, si, Target(inst, si), k);
      assert SecretBy(a, param, 0);
      DerivedBy(a, param, 0);
    }
  }

  lemma DerivedBy(a: Setup, v: nat, n: nat)
    requires SecretBy(a, v, n)
    ensures Derived(a, v)
  { }

  lemma ReachedBlock(a: Setup, b: nat)
    requires Reached(a, b)
    ensures b < |a.f.blocks|
  { }

  lemma ParamPlace(p: Problem<Taint>, b: nat, k: nat)
    requires ProblemOk(p) && k < |ParamsOf(p, b)|
    ensures IsParam(p.f, ParamsOf(p, b)[k], b, k)
    ensures ParamsOf(p, b)[k] < |p.f.values| && p.f.values[ParamsOf(p, b)[k]] == Param(b, k)
  {
    assert WellFormedBlock(p.f, b);
  }

  lemma PrunedTerm(a: Setup, mem: MemState, p: Problem<Taint>, s: State<Taint>, b: nat)
    requires Solution(a, mem, p, s) && Reached(a, b) && a.f.blocks[b].term.Some? && a.f.blocks[b].term.value < |a.f.insts|
    requires var t := a.f.insts[a.f.blocks[b].term.value];
             OperandsFit(t) && (forall v :: v in t.operands ==> v < |s.vals|) && TermOk(p, s, b, t)
    ensures TermOk(PrunedProblem(a, mem, p), Pruned(a, s), b, a.f.insts[a.f.blocks[b].term.value])
  {
    hide Solution, Kept, Pruned, Derived, Reached, WellFormedFunction, OperandsFit, EdgeArgs, EdgeCount, ArgVal;
    SolutionParts(a, mem, p, s);
    ReachedBlock(a, b);
    PrunedParts(a, s);
    var q, t, inst := PrunedProblem(a, mem, p), Pruned(a, s), a.f.insts[a.f.blocks[b].term.value];
    forall si: nat | si < EdgeCount(inst.kind) && Feasible(q, t, inst, si) ensures EdgeOk(q, t, b, inst, si) {
      assert Feasible(p, s, inst, si) && EdgeOk(p, s, b, inst, si);
      forall k: nat | k < |ParamsOf(q, Target(inst, si))|
        ensures q.dom.le(ArgVal(q, t, inst, si, k), SolverSteps.Val(q, t, ParamsOf(q, Target(inst, si))[k]))
      {
        assert p.dom.le(ArgVal(p, s, inst, si, k), SolverSteps.Val(p, s, ParamsOf(p, Target(inst, si))[k]));
        PrunedArg(a, mem, p, s, b, si, k);
      }
    }
  }

  lemma PrunedParts(a: Setup, s: State<Taint>)
    ensures var t := Pruned(a, s);
            t.exec == s.exec && t.edges == s.edges && t.blockWl == s.blockWl && t.ssaWl == s.ssaWl && |t.vals| == |s.vals|
  { }

  lemma PrunedSeed(a: Setup, mem: MemState, p: Problem<Taint>, s: State<Taint>, v: nat)
    requires Solution(a, mem, p, s) && v < |a.f.values| == |s.vals| && !a.f.values[v].FromInst?
    requires p.dom.le(Init(p, v), s.vals[v])
    ensures var q, t := PrunedProblem(a, mem, p), Pruned(a, s); q.dom.le(Init(q, v), t.vals[v])
  {
    hide Solution, Kept, Derived;
    SolutionParts(a, mem, p, s);
    if Init(p, v) == Taint.Secret {
      assert SecretBy(a, v, 0);
      DerivedBy(a, v, 0);
    }
  }

  lemma PrunedInst(a: Setup, mem: MemState, p: Problem<Taint>, s: State<Taint>, i: nat, b: nat)
    requires Solution(a, mem, p, s) && i < |a.f.insts| && Placed(a.f, i, b) && b < |s.exec| && s.exec[b]
    ensures ProblemOk(PrunedProblem(a, mem, p)) && Absorbed(PrunedProblem(a, mem, p), Pruned(a, s), i, b)
  {
    hide Solution, Kept, Pruned, Derived, TaintDomain, WellFormedFunction, OperandsFit, TermOk, Transferred;
    SolutionParts(a, mem, p, s);
    SolvedInst(p, s, i, b);
    InstFits(p, s, i);
    assert Reached(a, b);
    if a.f.insts[i].kind.IsTerminator() {
      TermPlace(p, i, b);
      PrunedTerm(a, mem, p, s, b);
    } else {
      BodyPlace(p, i, b);
      assert InReach(a, i);
      if a.f.insts[i].result.Some? {
        ResultInRange(a.f, i);
        PrunedResult(a, mem, p, s, i, a.f.insts[i].result.value);
      }
    }
  }

  lemma SolvedInst(p: Problem<Taint>, s: State<Taint>, i: nat, b: nat)
    requires IsSolution(p, s) && i < |p.f.insts| && Placed(p.f, i, b) && b < |s.exec| && s.exec[b]
    ensures ProblemOk(p) && Absorbed(p, s, i, b) && WellFormedFunction(p.f)
  { }

  lemma InstFits(p: Problem<Taint>, s: State<Taint>, i: nat)
    requires ProblemOk(p) && Sized(p, s) && i < |p.f.insts|
    ensures OperandsFit(p.f.insts[i]) && forall v :: v in p.f.insts[i].operands ==> v < |s.vals|
  {
    assert WellFormedInst(p.f, i);
  }

  lemma TermPlace(p: Problem<Taint>, i: nat, b: nat)
    requires ProblemOk(p) && i < |p.f.insts| && Placed(p.f, i, b) && p.f.insts[i].kind.IsTerminator()
    ensures b < |p.f.blocks| && p.f.blocks[b].term == Some(i)
  {
    assert WellFormedBlock(p.f, b);
  }

  lemma BodyPlace(p: Problem<Taint>, i: nat, b: nat)
    requires ProblemOk(p) && i < |p.f.insts| && Placed(p.f, i, b) && !p.f.insts[i].kind.IsTerminator()
    ensures b < |p.f.blocks| && i in p.f.blocks[b].insts
  {
    assert WellFormedBlock(p.f, b);
  }

  /** What chains account for explains itself. */
  lemma PrunedSolves(a: Setup, mem: MemState, p: Problem<Taint>, s: State<Taint>)
    requires Solution(a, mem, p, s)
    ensures Solution(a, Kept(a, mem), PrunedProblem(a, mem, p), Pruned(a, s))
  {
    hide Kept, Pruned, Derived, TaintDomain, SummarizeBlocks, WellFormedFunction, Absorbed, Init;
    SolutionParts(a, mem, p, s);
    SolutionFits(a, mem, p, s);
    KeptStable(a, mem, p, s);
    PrunedParts(a, s);
    var q, t := PrunedProblem(a, mem, p), Pruned(a, s);
    assert ProblemOk(q) && Sized(q, t);
    forall v: nat | v < |a.f.values| && !a.f.values[v].FromInst? ensures q.dom.le(Init(q, v), t.vals[v]) { PrunedSeed(a, mem, p, s, v); }
    forall i: nat, b: nat | i < |a.f.insts| && Placed(a.f, i, b) && t.exec[b] ensures Absorbed(q, t, i, b) {
      PrunedInst(a, mem, p, s, i, b);
    }
  }

  // -------------------------------------------------------------- main results

  /** What the analysis computes for a setup. */
  ghost predicate Computed(a: Setup, mem: MemState, p: Problem<Taint>, s: State<Taint>) {
    IsTaintFixpoint(a.f, a.secretParams, a.secretGlobals, a.roots, mem, p, s) && a.reached == s.exec
  }

  lemma ComputedSolution(a: Setup, mem: MemState, p: Problem<Taint>, s: State<Taint>)
    requires Computed(a, mem, p, s)
    ensures Solution(a, mem, p, s) && |s.vals| == |a.f.values|
  {
    hide SummarizeBlocks, WellFormedFunction;
  }

  /** Nothing is called secret without a chain. */
  lemma SecretHasCause(a: Setup, mem: MemState, p: Problem<Taint>, s: State<Taint>)
    requires Computed(a, mem, p, s)
    ensures forall v: nat :: IsSecret(s.vals, v) ==> Derived(a, v)
    ensures forall x: Spot :: Has(mem, x) ==> Marked(a, x)
  {
    hide Solution, IsTaintSolution, Derived, Marked, Kept, Pruned;
    ComputedSolution(a, mem, p, s);
    PrunedSolves(a, mem, p, s);
    var q, t := PrunedProblem(a, mem, p), Pruned(a, s);
    assert IsTaintSolution(a.f, a.secretParams, a.secretGlobals, a.roots, Kept(a, mem), q, t) by {
      SolutionIs(a, Kept(a, mem), q, t);
    }
    assert mem.Within(Kept(a, mem)) && Below(p, s, t);
    SolutionParts(a, mem, p, s);
    forall v: nat | IsSecret(s.vals, v) ensures Derived(a, v) {
      TaintLe(a, mem, p, s.vals[v], t.vals[v]);
      PrunedSecret(a, s, v);
    }
    forall x: Spot | Has(mem, x) ensures Marked(a, x) {
      WithinHas(mem, Kept(a, mem), x);
      KeptMarked(a, mem, x);
    }
  }

  lemma SolutionIs(a: Setup, mem: MemState, p: Problem<Taint>, s: State<Taint>)
    requires Solution(a, mem, p, s)
    ensures IsTaintSolution(a.f, a.secretParams, a.secretGlobals, a.roots, mem, p, s)
  { }

  lemma WithinHas(mem: MemState, mem': MemState, x: Spot)
    requires mem.Within(mem') && Has(mem, x)
    ensures Has(mem', x)
  { }

  // ------------------------------------------------------------- and every chain counts

  lemma {:induction false} ChainSecret(a: Setup, mem: MemState, p: Problem<Taint>, s: State<Taint>, v: nat, n: nat)
    requires Solution(a, mem, p, s) && SecretBy(a, v, n)
    ensures IsSecret(s.vals, v)
    decreases n, 2
  {
    hide Solution, Reached, PassesArg, LeavesOut, InReach, ResultBy, TaintDomain, WellFormedFunction;
    SolutionParts(a, mem, p, s);
    match a.f.values[v]
    case Param(b, index) =>
      if a.f.entry == Some(b) && index < |a.secretParams| && a.secretParams[index] {
        SeedSecret(a, mem, p, s, v);
      } else if q: nat, si: nat :| Reached(a, q) && LeavesOut(a.f, q, si, b, index) {
        LeftOutSecret(a, mem, p, s, v, b, index, q, si);
      } else {
        var q: nat, si: nat, w: nat :| Reached(a, q) && PassesArg(a.f, q, si, b, index, w) && SecretBy(a, w, n - 1);
        ChainSecret(a, mem, p, s, w, n - 1);
        PassedSecret(a, mem, p, s, v, b, index, q, si, w);
      }
    case FromInst(i) => ResultSecret(a, mem, p, s, v, i, n);
  }

  lemma SeedSecret(a: Setup, mem: MemState, p: Problem<Taint>, s: State<Taint>, v: nat)
    requires Solution(a, mem, p, s) && v < |a.f.values| && a.f.values[v].Param? && a.f.entry == Some(a.f.values[v].block)
    requires a.f.values[v].index < |a.secretParams| && a.secretParams[a.f.values[v].index]
    ensures IsSecret(s.vals, v)
  {
    hide Solution;
    SolutionParts(a, mem, p, s);
    assert p.dom.le(Init(p, v), s.vals[v]);
  }

  /** What a reached terminator's edge absorbs. */
  lemma ReachedEdge(a: Setup, mem: MemState, p: Problem<Taint>, s: State<Taint>, q: nat, si: nat, b: nat, index: nat)
    requires Solution(a, mem, p, s) && Reached(a, q) && a.f.blocks[q].term.Some? && a.f.blocks[q].term.value < |a.f.insts|
    requires var t := a.f.insts[a.f.blocks[q].term.value]; HasEdge(t.kind, si) && EdgeTo(t.kind, si) == b
    requires b < |a.f.blocks| && index < |a.f.blocks[b].params|
    ensures var t := a.f.insts[a.f.blocks[q].term.value];
            && OperandsFit(t) && si < EdgeCount(t.kind) && Target(t, si) == b
            && (forall v :: v in t.operands ==> v < |s.vals|)
            && p.dom.le(ArgVal(p, s, t, si, index), SolverSteps.Val(p, s, a.f.blocks[b].params[index]))
  {
    hide Solution, WellFormedFunction, TaintDomain, EdgeArgs, OperandsFit, ArgFrom, ArgNum, EdgeCount, Successors, EdgeTo, HasEdge, ArgVal;
    SolutionParts(a, mem, p, s);
    ReachedBlock(a, q);
    TermAt(p, q);
    var i := a.f.blocks[q].term.value;
    var t := a.f.insts[i];
    InstFits(p, s, i);
    EdgesMean(t, si);
    SolvedInst(p, s, i, q);
    TaintFeasible(a, mem, p, s, i, si);
    assert EdgeOk(p, s, q, t, si);
    assert ParamsOf(p, b)[index] == a.f.blocks[b].params[index];
  }

  lemma TaintFeasible(a: Setup, mem: MemState, p: Problem<Taint>, s: State<Taint>, i: nat, si: nat)
    requires p.f == a.f && ProblemOk(p) && p.dom == TaintDomain(a.f, a.secretParams, a.roots, mem)
    requires i < |a.f.insts| && si < EdgeCount(a.f.insts[i].kind)
    ensures Feasible(p, s, a.f.insts[i], si)
  {
    assert WellFormedInst(p.f, i);
  }

  lemma LeftOutSecret(a: Setup, mem: MemState, p: Problem<Taint>, s: State<Taint>, v: nat, b: nat, index: nat, q: nat, si: nat)
    requires Solution(a, mem, p, s) && v < |a.f.values| && IsParam(a.f, v, b, index) && Reached(a, q) && LeavesOut(a.f, q, si, b, index)
    ensures IsSecret(s.vals, v)
  {
    hide Solution, Reached, TaintDomain, EdgeArgs, OperandsFit, ArgFrom, ArgNum, EdgeCount, Successors, EdgeTo, HasEdge;
    SolutionParts(a, mem, p, s);
    SizedIs(p, s);
    ReachedEdge(a, mem, p, s, q, si, b, index);
    var t := a.f.insts[a.f.blocks[q].term.value];
    EdgesMean(t, si);
    TaintLe(a, mem, p, ArgVal(p, s, t, si, index), SolverSteps.Val(p, s, v));
    TaintLe(a, mem, p, SolverSteps.Val(p, s, v), Public);
  }

  lemma SizedIs(p: Problem<Taint>, s: State<Taint>)
    requires Sized(p, s)
    ensures |s.vals| == |p.f.values| && |s.exec| == |p.f.blocks|
  { }

  lemma PassedSecret(a: Setup, mem: MemState, p: Problem<Taint>, s: State<Taint>, v: nat, b: nat, index: nat, q: nat, si: nat, w: nat)
    requires Solution(a, mem, p, s) && v < |a.f.values| && IsParam(a.f, v, b, index) && Reached(a, q) && PassesArg(a.f, q, si, b, index, w)
    requires IsSecret(s.vals, w)
    ensures IsSecret(s.vals, v)
  {
    hide Solution, Reached, TaintDomain, EdgeArgs, OperandsFit, ArgFrom, ArgNum, EdgeCount, Successors, EdgeTo, HasEdge;
    SolutionParts(a, mem, p, s);
    SizedIs(p, s);
    ReachedEdge(a, mem, p, s, q, si, b, index);
    var t := a.f.insts[a.f.blocks[q].term.value];
    EdgesMean(t, si);
    TaintLe(a, mem, p, ArgVal(p, s, t, si, index), SolverSteps.Val(p, s, v));
    TaintLe(a, mem, p, SolverSteps.Val(p, s, v), Public);
  }

  lemma {:induction false} ResultSecret(a: Setup, mem: MemState, p: Problem<Taint>, s: State<Taint>, v: nat, i: nat, n: nat)
    requires Solution(a, mem, p, s) && IsResult(a, v, i) && ResultBy(a, i, n)
    ensures IsSecret(s.vals, v)
    decreases n, 1
  {
    hide Solution, Reads, LoadsFrom, InReach, Has;
    InReachInst(a, i);
    var ops := a.f.insts[i].operands;
    if a.f.insts[i].kind.Load? {
      if !a.f.insts[i].kind.secret {
        var x: Spot :| Reads(a, LoadsFrom(a, i), x) && TaintedBy(a, x, n - 1);
        ChainTaints(a, mem, p, s, x, n - 1);
        SolutionFits(a, mem, p, s);
        ReadsMean(a, mem, LoadsFrom(a, i));
      }
      LoadSecret(a, mem, p, s, v, i);
    } else {
      var w: nat :| w in ops && SecretBy(a, w, n - 1);
      ChainSecret(a, mem, p, s, w, n - 1);
      OperandSecret(a, mem, p, s, v, i, w);
    }
  }

  /** What a reached instruction's result absorbs. */
  lemma ReachedResult(a: Setup, mem: MemState, p: Problem<Taint>, s: State<Taint>, v: nat, i: nat)
    requires Solution(a, mem, p, s) && IsResult(a, v, i)
    ensures p.f == a.f && p.dom == TaintDomain(a.f, a.secretParams, a.roots, mem)
    ensures |s.vals| == |a.f.values| && ProblemOk(p) && Sized(p, s)
    ensures Transferred(p, s, i) == Taint.Secret ==> IsSecret(s.vals, v)
  {
    hide Solution, TaintDomain, WellFormedFunction, Transferred;
    SolutionParts(a, mem, p, s);
    SizedIs(p, s);
    var b: nat :| Reached(a, b) && i in a.f.blocks[b].insts;
    BodyInRange(p, b, i);
    SolvedInst(p, s, i, b);
    TaintLe(a, mem, p, Transferred(p, s, i), SolverSteps.Val(p, s, v));
    TaintLe(a, mem, p, SolverSteps.Val(p, s, v), Public);
  }

  lemma LoadSecret(a: Setup, mem: MemState, p: Problem<Taint>, s: State<Taint>, v: nat, i: nat)
    requires Solution(a, mem, p, s) && IsResult(a, v, i) && a.f.insts[i].kind.Load?
    requires a.f.insts[i].kind.secret || mem.RootSecret(LoadsFrom(a, i))
    ensures IsSecret(s.vals, v)
  {
    hide Solution, TaintDomain, ProblemOk, Sized, Transferred, InReach, LoadsFrom;
    ReachedResult(a, mem, p, s, v, i);
    InReachInst(a, i);
    TransferIs(a, mem, p, s, i);
  }

  lemma OperandSecret(a: Setup, mem: MemState, p: Problem<Taint>, s: State<Taint>, v: nat, i: nat, w: nat)
    requires Solution(a, mem, p, s) && IsResult(a, v, i) && w in a.f.insts[i].operands && IsSecret(s.vals, w)
    requires !a.f.insts[i].kind.Load? && !a.f.insts[i].kind.Alloca? && !a.f.insts[i].kind.Declassify?
    ensures IsSecret(s.vals, v)
  {
    hide Solution, TaintDomain, ProblemOk, Sized, Transferred, InReach, JoinAll;
    ReachedResult(a, mem, p, s, v, i);
    InReachInst(a, i);
    TransferIs(a, mem, p, s, i);
    var ops := a.f.insts[i].operands;
    var k :| 0 <= k < |ops| && ops[k] == w;
    JoinedSecret(Operands(p, s, ops), k);
  }

  lemma JoinedSecret(ts: seq<Taint>, k: nat)
    requires k < |ts| && ts[k] == Taint.Secret
    ensures JoinAll(ts) == Taint.Secret
  { }

  lemma {:induction false} ChainTaints(a: Setup, mem: MemState, p: Problem<Taint>, s: State<Taint>, x: Spot, n: nat)
    requires Solution(a, mem, p, s) && TaintedBy(a, x, n)
    ensures Has(mem, x)
    decreases n, 2
  {
    hide Solution, WritesBy, InReach;
    if x.Glob? && x.global < |a.secretGlobals| && a.secretGlobals[x.global] {
      DeclaredHas(a, mem, p, s, x);
    } else {
      var i: nat :| InReach(a, i) && (InReachInst(a, i); WritesBy(a, i, x, n));
      WriteTaints(a, mem, p, s, i, x, n);
    }
  }

  lemma DeclaredHas(a: Setup, mem: MemState, p: Problem<Taint>, s: State<Taint>, x: Spot)
    requires Solution(a, mem, p, s) && x.Glob? && x.global < |a.secretGlobals| && a.secretGlobals[x.global]
    ensures Has(mem, x)
  {
    hide IsSolution, SummarizeBlocks;
  }

  lemma {:induction false} WriteTaints(a: Setup, mem: MemState, p: Problem<Taint>, s: State<Taint>, i: nat, x: Spot, n: nat)
    requires Solution(a, mem, p, s) && InReach(a, i) && WritesBy(a, i, x, n)
    ensures Has(mem, x)
    decreases n, 1
  {
    hide Solution, Reads, Writes, Leads, InReach, Has;
    SolutionFits(a, mem, p, s);
    InReachInst(a, i);
    InstStable(a, mem, p, s, i);
    var ops := a.f.insts[i].operands;
    LeadsIs(a, ops[0]);
    LeadsIs(a, ops[1]);
    WritesMean(a, mem, RootOf(a.roots, ops[0]));
    match a.f.insts[i].kind
    case Store(flagged) => if !flagged { ChainSecret(a, mem, p, s, ops[1], n - 1); }
    case MemSet => ChainSecret(a, mem, p, s, ops[1], n - 1);
    case MemCopy =>
      var y: Spot :| Reads(a, Leads(a, ops[1]), y) && TaintedBy(a, y, n - 1);
      ChainTaints(a, mem, p, s, y, n - 1);
      ReadsMean(a, mem, RootOf(a.roots, ops[1]));
    case _ =>
  }

  /** Whatever the analysis computes: a value is called secret, and a place in memory may
      hold a secret, exactly when a finite chain leads back to something declared so. */
  lemma SecretIffCaused(a: Setup, mem: MemState, p: Problem<Taint>, s: State<Taint>)
    requires Computed(a, mem, p, s)
    ensures forall v: nat :: IsSecret(s.vals, v) <==> Derived(a, v)
    ensures forall x: Spot :: Has(mem, x) <==> Marked(a, x)
  {
    hide Solution, IsTaintFixpoint, SecretBy, TaintedBy, Has, IsSecret;
    SecretHasCause(a, mem, p, s);
    ComputedSolution(a, mem, p, s);
    forall v: nat | Derived(a, v) ensures IsSecret(s.vals, v) {
      var n: nat :| SecretBy(a, v, n);
      ChainSecret(a, mem, p, s, v, n);
    }
    forall x: Spot | Marked(a, x) ensures Has(mem, x) {
      var n: nat :| TaintedBy(a, x, n);
      ChainTaints(a, mem, p, s, x, n);
    }
  }

  /** Nothing is declared secret, no load or store is flagged, and no edge leaves a
      parameter out. */
  ghost predicate NothingSecret(a: Setup) {
    && (forall k :: 0 <= k < |a.secretParams| ==> !a.secretParams[k])
    && (forall g :: 0 <= g < |a.secretGlobals| ==> !a.secretGlobals[g])
    && (forall i :: 0 <= i < |a.f.insts| ==> a.f.insts[i].kind != Load(true) && a.f.insts[i].kind != Store(true))
    && (forall q: nat, si: nat, b: nat, index: nat ::
          LeavesOut(a.f, q, si, b, index) ==> b >= |a.f.blocks| || index >= |a.f.blocks[b].params|)
  }

  ghost predicate NoneBy(a: Setup, n: nat) {
    forall v: nat :: !SecretBy(a, v, n)
  }

  lemma {:induction false} NoChain(a: Setup, n: nat)
    requires NothingSecret(a)
    ensures forall v: nat :: !SecretBy(a, v, n)
    ensures forall x: Spot :: !TaintedBy(a, x, n)
    decreases n
  {
    hide Reached, PassesArg, LeavesOut, InReach, Reads, Writes, LoadsFrom, Leads;
    if n > 0 { NoChain(a, n - 1); }
    forall i: nat | i < |a.f.insts| ensures !ResultBy(a, i, n) { }
    forall i: nat, x: Spot | i < |a.f.insts| ensures !WritesBy(a, i, x, n) { }
    forall x: Spot ensures !TaintedBy(a, x, n) { NoWrite(a, x, n); }
    forall v: nat ensures !SecretBy(a, v, n) { NoSecret(a, v, n); }
  }

  lemma NoWrite(a: Setup, x: Spot, n: nat)
    requires NothingSecret(a) && forall i: nat :: i < |a.f.insts| ==> !WritesBy(a, i, x, n)
    ensures !TaintedBy(a, x, n)
  {
    hide WritesBy, Reached;
  }

  lemma NoSecret(a: Setup, v: nat, n: nat)
    requires NothingSecret(a) && (forall i: nat :: i < |a.f.insts| ==> !ResultBy(a, i, n))
    requires n > 0 ==> NoneBy(a, n - 1)
    ensures !SecretBy(a, v, n)
  {
    hide ResultBy, Reached, PassesArg, LeavesOut;
  }

  /** So where nothing is declared secret, nothing is called secret. */
  lemma NothingComesOut(a: Setup, mem: MemState, p: Problem<Taint>, s: State<Taint>)
    requires Computed(a, mem, p, s) && NothingSecret(a)
    ensures forall v: nat :: !IsSecret(s.vals, v)
    ensures forall root: MemRoot :: !mem.RootSecret(root)
  {
    hide Computed, NothingSecret, SecretBy, TaintedBy, Has, IsSecret, Reads;
    SecretIffCaused(a, mem, p, s);
    ComputedSolution(a, mem, p, s);
    SolutionFits(a, mem, p, s);
    forall v: nat ensures !Derived(a, v) {
      forall n: nat ensures !SecretBy(a, v, n) { NoChain(a, n); }
    }
    forall x: Spot ensures !Marked(a, x) {
      forall n: nat ensures !TaintedBy(a, x, n) { NoChain(a, n); }
    }
    forall root: MemRoot ensures !mem.RootSecret(root) { ReadsMean(a, mem, root); }
  }
}
