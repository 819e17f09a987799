/** What the depth limit on resolving memory roots costs: when every root is still
    found, an arrangement in which one is lost, and non-interference for what the
    whole analysis computes. */
module RootLimit {
  import opened Wrappers
  import opened Ir
  import opened Secret
  import opened NonInterference

  // ------------------------------------------------------- where no root is lost

  predicate IsDerived(f: Function, v: nat) {
    && v < |f.values| && f.values[v].FromInst? && f.values[v].inst < |f.insts|
    && Derives(f.insts[f.values[v].inst].kind) && f.insts[f.values[v].inst].operands != []
  }

  function BaseOf(f: Function, v: nat): nat
    requires IsDerived(f, v)
  {
    f.insts[f.values[v].inst].operands[0]
  }

  predicate IsSlot(f: Function, v: nat) {
    && v < |f.values| && f.values[v].FromInst? && f.values[v].inst < |f.insts|
    && f.insts[f.values[v].inst].kind.Alloca?
  }

  /** The value `n` derivations down from `v`. */
  function Down(f: Function, v: nat, n: nat): Option<nat>
    decreases n
  {
    if n == 0 then Some(v) else if IsDerived(f, v) then Down(f, BaseOf(f, v), n - 1) else None
  }

  /** What a value that is not derived points into. */
  ghost function LeafRoot(f: Function, v: nat): MemRoot {
    if v >= |f.values| then Unknown
    else if f.values[v].GlobalRef? then Global(f.values[v].global)
    else if IsSlot(f, v) && !Escapes(f, v) then Stack(f.values[v].inst)
    else Unknown
  }

  /** The chain down from `v` ends, after `n` derivations, at a global or a slot
      that never escapes, with root `r`. */
  ghost predicate EndsIn(f: Function, v: nat, n: nat, r: MemRoot) {
    && r != Unknown && Down(f, v, n).Some?
    && !IsDerived(f, Down(f, v, n).value) && LeafRoot(f, Down(f, v, n).value) == r
  }

  ghost predicate Tracked(f: Function, v: nat, r: MemRoot) {
    exists n: nat :: EndsIn(f, v, n, r)
  }

  /** The limit cuts `v`'s chain at `x`: `x` lies 64 derivations below, is no
      global's name, is tracked, and is on no chain resolved before. */
  ghost predicate CutsAt(f: Function, v: nat, x: nat) {
    && v < |f.values| && Down(f, v, DEPTH_LIMIT) == Some(x) && x < |f.values| && !f.values[x].GlobalRef?
    && (exists r :: Tracked(f, x, r))
    && forall w: nat, n: nat :: w < v ==> Down(f, w, n) != Some(x)
  }

  ghost predicate LosesARoot(f: Function) {
    exists v: nat, x: nat :: CutsAt(f, v, x)
  }

  /** A derived pointer is tracked just as its base is. */
  lemma TrackedStep(f: Function, v: nat, r: MemRoot)
    requires IsDerived(f, v)
    ensures Tracked(f, v, r) <==> Tracked(f, BaseOf(f, v), r)
  {
    hide Escapes;
    if n: nat :| EndsIn(f, v, n, r) {
      assert EndsIn(f, BaseOf(f, v), n - 1, r);
    }
    if n: nat :| EndsIn(f, BaseOf(f, v), n, r) {
      assert EndsIn(f, v, n + 1, r);
    }
  }

  lemma TrackedLeaf(f: Function, v: nat, r: MemRoot)
    requires !IsDerived(f, v)
    ensures Tracked(f, v, r) <==> r != Unknown && LeafRoot(f, v) == r
  {
    hide Escapes;
    if r != Unknown && LeafRoot(f, v) == r { assert EndsIn(f, v, 0, r); }
  }

  lemma {:induction false} TrackedAbove(f: Function, v: nat, n: nat, x: nat, r: MemRoot)
    requires Down(f, v, n) == Some(x)
    ensures Tracked(f, v, r) <==> Tracked(f, x, r)
    decreases n
  {
    hide Tracked;
    if n > 0 {
      TrackedStep(f, v, r);
      TrackedAbove(f, BaseOf(f, v), n - 1, x, r);
    }
  }

  lemma {:induction false} DownAdds(f: Function, v: nat, m: nat, y: nat, n: nat)
    requires Down(f, v, m) == Some(y)
    ensures Down(f, v, m + n) == Down(f, y, n)
    decreases m
  {
    if m > 0 { DownAdds(f, BaseOf(f, v), m - 1, y, n); }
  }

  lemma BaseInRange(f: Function, v: nat)
    requires WellFormedFunction(f) && IsDerived(f, v)
    ensures BaseOf(f, v) < |f.values|
  {
    assert WellFormedInst(f, f.values[v].inst);
  }

  // --------------------------------------------------------- no cut, no root lost

  /** The root of `v` is the one tracked, unknown if none is. */
  ghost predicate RightAt(f: Function, v: nat, root: MemRoot) {
    (forall r :: Tracked(f, v, r) ==> root == r) && (root != Unknown ==> Tracked(f, v, root))
  }

  /** What is resolved is right, and below what is tracked everything is resolved. */
  ghost predicate ResolvedRight(f: Function, roots: seq<Option<MemRoot>>) {
    && |roots| == |f.values|
    && (forall v: nat :: v < |roots| && roots[v].Some? ==> RightAt(f, v, roots[v].value))
    && (forall v: nat, r :: v < |roots| && roots[v].Some? && Tracked(f, v, r) ==> BaseResolved(f, roots, v))
  }

  ghost predicate BaseResolved(f: Function, roots: seq<Option<MemRoot>>, v: nat) {
    IsDerived(f, v) ==> BaseOf(f, v) < |roots| && roots[BaseOf(f, v)].Some?
  }

  /** Going down from `v`, a resolved value or an end comes before the fuel is used. */
  predicate Near(f: Function, roots: seq<Option<MemRoot>>, v: nat, fuel: nat)
    decreases fuel
  {
    || (v < |roots| && roots[v].Some?)
    || (if IsDerived(f, v) then fuel > 0 && Near(f, roots, BaseOf(f, v), fuel - 1) else IsSlot(f, v) ==> fuel > 0)
  }

  lemma {:induction false} ResolveKeepsRight(f: Function, roots: seq<Option<MemRoot>>, v: nat, depth: nat)
    requires WellFormedFunction(f) && ResolvedRight(f, roots) && v < |roots| && depth <= DEPTH_LIMIT
    requires (exists r :: Tracked(f, v, r)) ==> Near(f, roots, v, DEPTH_LIMIT - depth)
    ensures ResolvedRight(f, ResolveSpec(f, roots, v, depth).1)
    decreases DEPTH_LIMIT - depth
  {
    hide WellFormedFunction, Escapes, Tracked, ResolvedRight;
    RightSized(f, roots);
    if roots[v].None? {
      var (root, after) := ResolveSpec(f, roots, v, depth);
      if IsDerived(f, v) {
        forall r ensures Tracked(f, v, r) <==> Tracked(f, BaseOf(f, v), r) { TrackedStep(f, v, r); }
        if depth < DEPTH_LIMIT {
          BaseInRange(f, v);
          var roots1 := ResolveSpec(f, roots, BaseOf(f, v), depth + 1).1;
          ResolveKeepsRight(f, roots, BaseOf(f, v), depth + 1);
          RightThere(f, roots1, BaseOf(f, v));
          SetRight(f, roots1, v, root);
        } else {
          SetRight(f, roots, v, root);
        }
      } else {
        forall r ensures Tracked(f, v, r) <==> r != Unknown && LeafRoot(f, v) == r { TrackedLeaf(f, v, r); }
        SetRight(f, roots, v, root);
      }
    }
  }

  lemma RightThere(f: Function, roots: seq<Option<MemRoot>>, v: nat)
    requires ResolvedRight(f, roots) && v < |roots| && roots[v].Some?
    ensures RightAt(f, v, roots[v].value)
  { }

  lemma SetRight(f: Function, roots: seq<Option<MemRoot>>, v: nat, root: MemRoot)
    requires ResolvedRight(f, roots) && v < |roots| && RightAt(f, v, root)
    requires forall r :: Tracked(f, v, r) ==> BaseResolved(f, roots, v)
    ensures ResolvedRight(f, roots[v := Some(root)])
  {
    hide Tracked, RightAt, IsDerived;
    var after := roots[v := Some(root)];
    forall w: nat, r | w < |after| && after[w].Some? && Tracked(f, w, r) ensures BaseResolved(f, after, w) {
      if w != v { assert BaseResolved(f, roots, w); }
    }
  }

  /** Where the fuel runs out. */
  lemma {:induction false} FarEnd(f: Function, roots: seq<Option<MemRoot>>, v: nat, fuel: nat) returns (x: nat)
    requires WellFormedFunction(f) && |roots| == |f.values| && v < |roots| && !Near(f, roots, v, fuel)
    ensures Down(f, v, fuel) == Some(x) && x < |roots| && roots[x].None? && !f.values[x].GlobalRef?
    decreases fuel
  {
    hide WellFormedFunction;
    if IsDerived(f, v) && fuel > 0 {
      BaseInRange(f, v);
      x := FarEnd(f, roots, BaseOf(f, v), fuel - 1);
    } else {
      x := v;
    }
  }

  lemma {:induction false} ChainResolved(f: Function, roots: seq<Option<MemRoot>>, w: nat, n: nat, x: nat, r: MemRoot)
    requires ResolvedRight(f, roots) && w < |roots| && roots[w].Some? && Down(f, w, n) == Some(x) && Tracked(f, x, r)
    ensures x < |roots| && roots[x].Some?
    decreases n
  {
    hide Tracked, RightAt;
    if n > 0 {
      TrackedAbove(f, w, n, x, r);
      assert BaseResolved(f, roots, w);
      ChainResolved(f, roots, BaseOf(f, w), n - 1, x, r);
    }
  }

  lemma NearUnlessCut(f: Function, roots: seq<Option<MemRoot>>, v: nat, r: MemRoot)
    requires WellFormedFunction(f) && !LosesARoot(f) && ResolvedRight(f, roots) && v < |roots| && Tracked(f, v, r)
    requires forall w: nat :: w < v ==> roots[w].Some?
    ensures Near(f, roots, v, DEPTH_LIMIT)
  {
    hide WellFormedFunction, Tracked, ResolvedRight, IsDerived;
    RightSized(f, roots);
    if !Near(f, roots, v, DEPTH_LIMIT) {
      var x := FarEnd(f, roots, v, DEPTH_LIMIT);
      TrackedAbove(f, v, DEPTH_LIMIT, x, r);
      assert !CutsAt(f, v, x);
      var w: nat, n: nat :| w < v && Down(f, w, n) == Some(x);
      ChainResolved(f, roots, w, n, x, r);
    }
  }

  lemma RightSized(f: Function, roots: seq<Option<MemRoot>>)
    requires ResolvedRight(f, roots)
    ensures |roots| == |f.values|
  { }

  lemma {:induction false} RootsRight(f: Function, k: nat)
    requires WellFormedFunction(f) && !LosesARoot(f) && k <= |f.values|
    ensures ResolvedRight(f, RootsSpec(f, k)) && forall w: nat :: w < k ==> RootsSpec(f, k)[w].Some?
  {
    hide WellFormedFunction, LosesARoot, RightAt;
    if k > 0 {
      RootsRight(f, k - 1);
      var roots, v: nat := RootsSpec(f, k - 1), k - 1;
      if r :| Tracked(f, v, r) { NearUnlessCut(f, roots, v, r); }
      ResolveKeepsRight(f, roots, v, 0);
    }
  }

  lemma RightIsConsistent(f: Function, roots: seq<Option<MemRoot>>, v: nat)
    requires WellFormedFunction(f) && ResolvedRight(f, roots) && v < |roots| && forall w: nat :: w < |roots| ==> roots[w].Some?
    ensures roots[v] == Some(RootStep(f, roots, v))
  {
    hide WellFormedFunction, Tracked, Escapes;
    assert RightAt(f, v, roots[v].value);
    if IsDerived(f, v) {
      var base := BaseOf(f, v);
      BaseInRange(f, v);
      assert RightAt(f, base, roots[base].value);
      TrackedStep(f, v, roots[v].value);
      TrackedStep(f, v, roots[base].value);
    } else {
      TrackedLeaf(f, v, roots[v].value);
      TrackedLeaf(f, v, LeafRoot(f, v));
    }
  }

  // ----------------------------------------------------------- a cut loses a root

  /** Only values on the chains of the first `k` are resolved. */
  ghost predicate Touched(f: Function, roots: seq<Option<MemRoot>>, k: nat) {
    forall y: nat :: y < |roots| && roots[y].Some? ==> OnChainBelow(f, k, y)
  }

  ghost predicate OnChainBelow(f: Function, k: nat, y: nat) {
    exists w: nat, n: nat :: w < k && Down(f, w, n) == Some(y)
  }

  lemma {:induction false} ResolveTouches(f: Function, roots: seq<Option<MemRoot>>, k: nat, w: nat, n: nat, v: nat, depth: nat)
    requires WellFormedFunction(f) && |roots| == |f.values| && v < |roots| && depth <= DEPTH_LIMIT
    requires Touched(f, roots, k) && w < k && Down(f, w, n) == Some(v)
    ensures Touched(f, ResolveSpec(f, roots, v, depth).1, k)
    decreases DEPTH_LIMIT - depth
  {
    hide WellFormedFunction, Escapes;
    assert OnChainBelow(f, k, v);
    if roots[v].None? && IsDerived(f, v) && depth < DEPTH_LIMIT {
      BaseInRange(f, v);
      DownAdds(f, w, n, v, 1);
      assert Down(f, BaseOf(f, v), 0) == Some(BaseOf(f, v));
      ResolveTouches(f, roots, k, w, n + 1, BaseOf(f, v), depth + 1);
    }
  }

  lemma {:induction false} RootsTouch(f: Function, k: nat)
    requires WellFormedFunction(f) && k <= |f.values|
    ensures Touched(f, RootsSpec(f, k), k)
  {
    hide WellFormedFunction, OnChainBelow;
    if k > 0 {
      RootsTouch(f, k - 1);
      forall y: nat | OnChainBelow(f, k - 1, y) ensures OnChainBelow(f, k, y) { LongerBelow(f, k, y); }
      assert Down(f, k - 1, 0) == Some(k - 1);
      ResolveTouches(f, RootsSpec(f, k - 1), k, k - 1, 0, k - 1, 0);
    }
  }

  lemma LongerBelow(f: Function, k: nat, y: nat)
    requires k > 0 && OnChainBelow(f, k - 1, y)
    ensures OnChainBelow(f, k, y)
  {
    var w: nat, n: nat :| w < k - 1 && Down(f, w, n) == Some(y);
  }

  /** Nothing resolved on the way, the resolution of `v` gives up at `x`. */
  lemma {:induction false} GivesUp(f: Function, roots: seq<Option<MemRoot>>, v: nat, depth: nat, x: nat)
    requires WellFormedFunction(f) && |roots| == |f.values| && v < |roots| && x < |roots| && depth <= DEPTH_LIMIT
    requires Down(f, v, DEPTH_LIMIT - depth) == Some(x) && !f.values[x].GlobalRef?
    requires forall j: nat, y: nat :: Down(f, v, j) == Some(y) && j <= DEPTH_LIMIT - depth && y < |roots| ==> roots[y].None?
    ensures ResolveSpec(f, roots, v, depth).0 == Unknown && ResolveSpec(f, roots, v, depth).1[x] == Some(Unknown)
    decreases DEPTH_LIMIT - depth
  {
    hide WellFormedFunction, Escapes;
    assert Down(f, v, 0) == Some(v);
    if depth < DEPTH_LIMIT {
      BaseInRange(f, v);
      forall j: nat, y: nat | Down(f, BaseOf(f, v), j) == Some(y) && j <= DEPTH_LIMIT - depth - 1 && y < |roots|
        ensures roots[y].None?
      {
        assert Down(f, v, j + 1) == Some(y);
      }
      GivesUp(f, roots, BaseOf(f, v), depth + 1, x);
    }
  }

  lemma {:induction false} RootsStay(f: Function, k: nat, m: nat, x: nat)
    requires WellFormedFunction(f) && k <= m <= |f.values| && x < |f.values| && RootsSpec(f, k)[x].Some?
    ensures RootsSpec(f, m)[x] == RootsSpec(f, k)[x]
    decreases m
  {
    hide WellFormedFunction;
    if k < m { RootsStay(f, k, m - 1, x); }
  }

  lemma {:induction false} ConsistentTracks(f: Function, roots: seq<Option<MemRoot>>, v: nat, n: nat, r: MemRoot)
    requires WellFormedFunction(f) && RootsConsistent(f, roots) && v < |roots| && EndsIn(f, v, n, r)
    ensures roots[v] == Some(r)
    decreases n
  {
    hide WellFormedFunction, Escapes;
    assert roots[v] == Some(RootStep(f, roots, v));
    if n > 0 {
      BaseInRange(f, v);
      ConsistentTracks(f, roots, BaseOf(f, v), n - 1, r);
    }
  }

  lemma AboveCut(f: Function, v: nat, x: nat, j: nat, y: nat)
    requires CutsAt(f, v, x) && Down(f, v, j) == Some(y) && j <= DEPTH_LIMIT
    ensures !OnChainBelow(f, v, y)
  {
    hide Escapes, Tracked, Down;
    if w: nat, n: nat :| w < v && Down(f, w, n) == Some(y) {
      DownAdds(f, w, n, y, DEPTH_LIMIT - j);
      DownAdds(f, v, j, y, DEPTH_LIMIT - j);
    }
  }

  lemma CutLoses(f: Function, v: nat, x: nat)
    requires WellFormedFunction(f) && CutsAt(f, v, x)
    ensures RootsSpec(f, |f.values|)[x] == Some(Unknown)
  {
    hide WellFormedFunction, Escapes, ResolveSpec, Tracked, Down;
    var roots := RootsSpec(f, v);
    RootsTouch(f, v);
    forall j: nat, y: nat | Down(f, v, j) == Some(y) && j <= DEPTH_LIMIT && y < |roots| ensures roots[y].None? {
      AboveCut(f, v, x, j, y);
    }
    GivesUp(f, roots, v, 0, x);
    RootsStay(f, v + 1, |f.values|, x);
  }

  /** The computed roots are the roots of what is pointed into if and only if the
      limit cuts no chain. */
  lemma ConsistentIffNoCut(f: Function)
    requires WellFormedFunction(f)
    ensures RootsConsistent(f, RootsSpec(f, |f.values|)) <==> !LosesARoot(f)
  {
    hide WellFormedFunction, RootsSpec, ResolvedRight, RootStep, Escapes;
    var roots := RootsSpec(f, |f.values|);
    if LosesARoot(f) {
      var v: nat, x: nat :| CutsAt(f, v, x);
      CutLoses(f, v, x);
      var r :| Tracked(f, x, r);
      var n: nat :| EndsIn(f, x, n, r);
      if RootsConsistent(f, roots) { ConsistentTracks(f, roots, x, n, r); }
    } else {
      RootsRight(f, |f.values|);
      forall v: nat | v < |roots| ensures roots[v] == Some(RootStep(f, roots, v)) {
        RightIsConsistent(f, roots, v);
      }
    }
  }

  /** In builder order every chain goes down, through values resolved before. */
  lemma BuilderOrderLosesNone(f: Function)
    requires WellFormedFunction(f) && OperandsPrecede(f)
    ensures !LosesARoot(f)
  {
    hide WellFormedFunction, Tracked;
    forall v: nat, x: nat ensures !CutsAt(f, v, x) {
      if v < |f.values| && Down(f, v, DEPTH_LIMIT) == Some(x) {
        assert BaseOf(f, v) < v && Down(f, BaseOf(f, v), DEPTH_LIMIT - 1) == Some(x);
      }
    }
  }

  // ------------------------------------------------------------ whose global it is

  /** Every global root is that of some value naming the global. */
  ghost predicate GlobalsNamed(f: Function, roots: seq<Option<MemRoot>>) {
    forall v: nat, g: nat :: v < |roots| && roots[v] == Some(Global(g)) ==> NamesGlobal(f, g)
  }

  ghost predicate NamesGlobal(f: Function, g: nat) {
    exists v: nat :: v < |f.values| && f.values[v] == GlobalRef(g)
  }

  lemma {:induction false} ResolveNames(f: Function, roots: seq<Option<MemRoot>>, v: nat, depth: nat)
    requires WellFormedFunction(f) && |roots| == |f.values| && v < |roots| && GlobalsNamed(f, roots)
    ensures GlobalsNamed(f, ResolveSpec(f, roots, v, depth).1)
    ensures forall g: nat :: ResolveSpec(f, roots, v, depth).0 == Global(g) ==> NamesGlobal(f, g)
    decreases if depth <= DEPTH_LIMIT then DEPTH_LIMIT - depth else 0
  {
    hide WellFormedFunction, Escapes;
    if roots[v].None? && depth < DEPTH_LIMIT && IsDerived(f, v) {
      BaseInRange(f, v);
      ResolveNames(f, roots, BaseOf(f, v), depth + 1);
    }
  }

  lemma {:induction false} RootsName(f: Function, k: nat)
    requires WellFormedFunction(f) && k <= |f.values|
    ensures GlobalsNamed(f, RootsSpec(f, k))
  {
    hide WellFormedFunction;
    if k > 0 {
      RootsName(f, k - 1);
      ResolveNames(f, RootsSpec(f, k - 1), k - 1, 0);
    }
  }

  // ------------------------------------------- what the analysis computes is safe

  /** Non-interference for whatever the analysis computes, limit and all, on a
      function where no root is lost. */
  lemma ComputedIsNonInterfering(a: Analysis, secretParams: seq<bool>, declared: (Obj, int) -> bool, m: Machine,
                                 c1: Conf, c2: Conf, n: nat)
    requires WellFormedFunction(a.f) && !LosesARoot(a.f) && a.roots == RootsSpec(a.f, |a.f.values|)
    requires IsTaintFixpoint(a.f, secretParams, a.secretGlobals, a.roots, a.mem, a.p, a.s)
    requires Clean(a) && NoForging(m)
    requires forall v: nat :: v < |a.f.values| && a.f.values[v].GlobalRef? ==> a.f.values[v].global < |a.secretGlobals|
    requires PublicInputsAgree(a, declared, c1, c2)
    requires Contractual(a, declared, m, c1, n) && Contractual(a, declared, m, c2, n)
    ensures Steps(a.f, m, c1, n).Some? <==> Steps(a.f, m, c2, n).Some?
    ensures Steps(a.f, m, c1, n).Some? ==>
              var d1, d2 := Steps(a.f, m, c1, n).value, Steps(a.f, m, c2, n).value;
              && d1.block == d2.block && d1.pos == d2.pos && d1.env.Keys == d2.env.Keys
              && forall v: nat :: v in d1.env && !a.IsSecretVal(v) ==> d1.env[v] == d2.env[v]
  {
    hide WellFormedFunction, LosesARoot, IsTaintFixpoint, Clean, NoForging, PublicInputsAgree, Contractual,
      Steps, RootsConsistent, RootsSpec;
    ConsistentIffNoCut(a.f);
    RootsName(a.f, |a.f.values|);
    forall v: nat, g: nat | a.RootAt(v) == Global(g) ensures g < |a.secretGlobals| {
      assert NamesGlobal(a.f, g);
    }
    NonInterference.NonInterference(a, secretParams, declared, m, c1, c2, n);
  }

  // ------------------------------------------------------------ where one is lost

  const SLOT: nat := 65
  const GIVEN: nat := 66
  const READ: nat := 67

  /** A slot and 65 bitcasts of it, the outermost first in the arena. A parameter
      is stored, as a secret, through the outermost, and the slot is loaded. */
  function LongChain(): Function {
    Function(
      Some(0),
      [Block([GIVEN], [SLOT] + seq(SLOT, k requires 0 <= k < SLOT => SLOT - 1 - k) + [GIVEN, READ], Some(68))],
      seq(SLOT, (i: nat) => Inst(Bitcast, [i + 1], Some(i)))
      + [Inst(Alloca, [], Some(SLOT)), Inst(Store(true), [0, GIVEN], None), Inst(Load(false), [SLOT], Some(READ)), Inst(Ret, [], None)],
      seq(SLOT + 1, (i: nat) => FromInst(i)) + [Param(0, 0), FromInst(READ)],
      [[Use(GIVEN, 0)]] + seq(SLOT - 1, (i: nat) => [Use(i, 0)]) + [[Use(64, 0), Use(READ, 0)], [Use(GIVEN, 1)], []])
  }

  lemma LongInst(i: nat)
    requires i < SLOT
    ensures |LongChain().insts| == 69 && |LongChain().values| == 68 && |LongChain().uses| == 68
    ensures LongChain().insts[i] == Inst(Bitcast, [i + 1], Some(i)) && LongChain().values[i] == FromInst(i)
    ensures LongChain().uses[i] == if i == 0 then [Use(GIVEN, 0)] else [Use(i - 1, 0)]
  { }

  lemma LongRest()
    ensures var f := LongChain();
            && |f.insts| == 69 && |f.values| == 68 && |f.uses| == 68
            && f.insts[SLOT] == Inst(Alloca, [], Some(SLOT)) && f.insts[GIVEN] == Inst(Store(true), [0, GIVEN], None)
            && f.insts[READ] == Inst(Load(false), [SLOT], Some(READ)) && f.insts[68] == Inst(Ret, [], None)
            && f.values[SLOT] == FromInst(SLOT) && f.values[GIVEN] == Param(0, 0) && f.values[READ] == FromInst(READ)
            && f.uses[SLOT] == [Use(64, 0), Use(READ, 0)] && f.uses[GIVEN] == [Use(GIVEN, 1)] && f.uses[READ] == []
  { }

  lemma LongInstOk(i: nat)
    requires i < 69
    ensures |LongChain().insts| == 69 && |LongChain().values| == |LongChain().uses| == 68 && WellFormedInst(LongChain(), i)
  {
    hide LongChain;
    LongRest();
    if i < SLOT {
      LongInst(i);
      if i + 1 < SLOT { LongInst(i + 1); }
    } else {
      LongInst(0);
    }
  }

  lemma LongUseOk(v: nat, u: Use)
    requires v < |LongChain().uses| && u in LongChain().uses[v]
    ensures var f := LongChain(); u.inst < |f.insts| && u.operand < |f.insts[u.inst].operands| && f.insts[u.inst].operands[u.operand] == v
  {
    hide LongChain;
    LongRest();
    if v < SLOT { LongInst(v); }
    if u.inst < SLOT { LongInst(u.inst); }
  }

  lemma LongBlockOk()
    ensures |LongChain().blocks| == 1 && WellFormedBlock(LongChain(), 0)
  {
    var f := LongChain();
    forall i | i in f.blocks[0].insts ensures i < |f.insts| && !f.insts[i].kind.IsTerminator() { }
  }

  lemma LongIsWellFormed()
    ensures WellFormedFunction(LongChain())
  {
    hide LongChain, WellFormedInst, WellFormedBlock;
    LongRest();
    LongBlockOk();
    var f := LongChain();
    forall i: nat | i < |f.insts| ensures WellFormedInst(f, i) { LongInstOk(i); }
    forall v: nat, u: Use | v < |f.uses| && u in f.uses[v]
      ensures u.inst < |f.insts| && u.operand < |f.insts[u.inst].operands| && f.insts[u.inst].operands[u.operand] == v
    {
      LongUseOk(v, u);
    }
    LongEntry();
  }

  lemma LongEntry()
    ensures LongChain().entry == Some(0)
  { }

  /** The slot's address never escapes. */
  lemma LongSlotStays()
    ensures !Escapes(LongChain(), SLOT)
  {
    hide LongChain;
    var f := LongChain();
    LongRest();
    var closed := set v: nat | v < |f.values| && f.values[v] == FromInst(v);
    forall v: nat, u: Use | v in closed && v < |f.uses| && u in f.uses[v] ensures UseConfined(f, closed, u) {
      if v < SLOT { LongInst(v); }
      if u.inst < SLOT { LongInst(u.inst); }
    }
    assert SLOT in closed && Confined(f, closed);
  }

  /** Resolving bitcast `v` at depth `v` gives up at the 64th. */
  lemma {:induction false} LongGivesUp(roots: seq<Option<MemRoot>>, v: nat)
    requires WellFormedFunction(LongChain()) && |roots| == |LongChain().values| && v <= DEPTH_LIMIT
    requires forall w: nat :: w < |roots| ==> roots[w].None?
    ensures var r := ResolveSpec(LongChain(), roots, v, v);
            r.0 == Unknown && forall w: nat :: w < |roots| ==> r.1[w] == if v <= w < SLOT then Some(Unknown) else None
    decreases DEPTH_LIMIT - v
  {
    hide LongChain, WellFormedFunction, Escapes;
    LongRest();
    LongInst(v);
    if v < DEPTH_LIMIT { LongGivesUp(roots, v + 1); }
  }

  lemma {:induction false} LongRoots(k: nat)
    requires WellFormedFunction(LongChain()) && 1 <= k <= SLOT
    ensures |LongChain().values| == 68
    ensures forall w: nat :: w < 68 ==> RootsSpec(LongChain(), k)[w] == if w < SLOT then Some(Unknown) else None
  {
    hide LongChain, WellFormedFunction, Escapes;
    LongRest();
    if k == 1 {
      LongGivesUp(RootsSpec(LongChain(), 0), 0);
    } else {
      LongRoots(k - 1);
    }
  }

  lemma LongFinalRoots()
    ensures var f := LongChain(); WellFormedFunction(f) && |f.values| == 68 && |f.insts| == 69
    ensures var roots := RootsSpec(LongChain(), 68); roots[0] == Some(Unknown) && roots[SLOT] == Some(Stack(SLOT))
  {
    hide LongChain, WellFormedFunction, Escapes, WellFormedInst;
    LongIsWellFormed();
    LongRest();
    LongSlotStays();
    LongRoots(SLOT);
    var f := LongChain();
    var at65, at66, at67 := RootsSpec(f, SLOT), RootsSpec(f, GIVEN), RootsSpec(f, READ);
    assert at66[SLOT] == Some(Stack(SLOT)) && at66[0] == Some(Unknown);
    assert at67[SLOT] == Some(Stack(SLOT)) && at67[0] == Some(Unknown);
  }

  /** An over-long chain's `Unknown` is not conservative, as is claimed: the
      outermost bitcast gets the root unknown while the slot it points to keeps its
      own. */
  lemma LimitLosesTheSlot()
    ensures WellFormedFunction(LongChain()) && |LongChain().values| == 68
    ensures LosesARoot(LongChain()) && !RootsConsistent(LongChain(), RootsSpec(LongChain(), 68))
    ensures var roots := RootsSpec(LongChain(), 68); RootOf(roots, 0) == Unknown && RootOf(roots, SLOT) == Stack(SLOT)
  {
    hide LongChain, WellFormedFunction, RootsSpec, RootsConsistent, LosesARoot;
    LongFinalRoots();
    var f := LongChain();
    var roots := RootsSpec(f, 68);
    if RootsConsistent(f, roots) { LongClimb(roots, SLOT); }
    ConsistentIffNoCut(f);
  }

  /** Were the roots consistent, every bitcast would have the slot's. */
  lemma {:induction false} LongClimb(roots: seq<Option<MemRoot>>, k: nat)
    requires WellFormedFunction(LongChain()) && RootsConsistent(LongChain(), roots) && k <= SLOT
    requires |LongChain().values| == 68 && roots[SLOT] == Some(Stack(SLOT))
    ensures roots[SLOT - k] == Some(Stack(SLOT))
  {
    hide LongChain, WellFormedFunction, Escapes;
    if k > 0 {
      LongRest();
      LongClimb(roots, k - 1);
      LongInst(SLOT - k);
      assert roots[SLOT - k] == Some(RootStep(LongChain(), roots, SLOT - k));
    }
  }
}
