/** Where the depth limit on memory roots breaks non-interference: on one function the
    finished analysis calls a loaded value public that differs between two runs
    differing only in a secret. */
module LostSecret {
  import opened Wrappers
  import opened Ir
  import opened SolverSteps
  import opened SolverLeast
  import opened Secret
  import opened NonInterference
  import opened RootLimit

  // --------------------------------------------------------- what is not secret

  /** Only the parameter is secret. */
  function GivenOnly(): State<Taint> {
    State(seq(68, (v: nat) => if v == GIVEN then Secret else Public), [true], [[]], [], [])
  }

  /** Only unknown memory is. */
  function UnknownOnly(f: Function, secretGlobals: seq<bool>): MemState {
    InitialMem(f, secretGlobals).(unknown := true)
  }

  ghost predicate LongRoots(roots: seq<Option<MemRoot>>) {
    RootOf(roots, 0) == Unknown && RootOf(roots, SLOT) == Stack(SLOT)
  }

  lemma LongTransfer(roots: seq<Option<MemRoot>>, mem: MemState, i: nat)
    requires LongRoots(roots) && |mem.stack| == 69 && !mem.stack[SLOT]
    requires |LongChain().insts| == 69 && i < 69 && LongChain().insts[i].result.Some?
    ensures match TransferHook(LongChain(), roots, mem, i)
            case Some(t) => t == Public
            case None => !LongChain().insts[i].kind.Load? && GIVEN !in LongChain().insts[i].operands
  {
    hide LongChain;
    LongRest();
    if i < SLOT { LongInst(i); }
  }

  lemma LongShape()
    ensures var f := LongChain(); f.entry == Some(0) && |f.blocks| == 1 && f.blocks[0].term == Some(68) && SuccessorsOf(f, 0) == []
    ensures LongChain().blocks[0].insts == [SLOT] + seq(SLOT, k requires 0 <= k < SLOT => SLOT - 1 - k) + [GIVEN, READ]
    ensures forall v: nat :: v < |LongChain().values| && !LongChain().values[v].FromInst? ==> v == GIVEN
  { }

  lemma GivenOnlySolves(roots: seq<Option<MemRoot>>, mem: MemState, p: Problem<Taint>)
    requires ProblemOk(p) && p.f == LongChain() && p.dom == TaintDomain(p.f, [true], roots, mem)
    requires LongRoots(roots) && |mem.stack| == 69 && !mem.stack[SLOT]
    ensures IsSolution(p, GivenOnly())
  {
    hide LongChain, WellFormedFunction, ProblemOk, TransferHook;
    var t := GivenOnly();
    LongRest();
    LongShape();
    forall i: nat, b: nat | i < |p.f.insts| && Placed(p.f, i, b) && t.exec[b] ensures Absorbed(p, t, i, b) {
      InstInRange(p, i);
      if i == 68 {
      } else if p.f.insts[i].result.Some? {
        LongTransfer(roots, mem, i);
        if i < SLOT { LongInst(i); }
        var ts := Operands(p, t, p.f.insts[i].operands);
      } else {
        if i < SLOT { LongInst(i); }
      }
    }
  }

  lemma {:induction false} StaysSummary(f: Function, vals: seq<Taint>, roots: seq<Option<MemRoot>>, mem: MemState, list: seq<nat>, n: nat)
    requires n <= |list| && forall i :: i in list ==> SummarizeInst(f, vals, roots, mem, i) == mem
    ensures SummarizeList(f, vals, roots, mem, list, n) == mem
    decreases n
  {
    hide SummarizeInst;
    if n > 0 {
      StaysSummary(f, vals, roots, mem, list, n - 1);
      assert list[n - 1] in list;
    }
  }

  lemma UnknownOnlyStays(roots: seq<Option<MemRoot>>, secretGlobals: seq<bool>)
    requires LongRoots(roots)
    ensures var f := LongChain(); var mem := UnknownOnly(f, secretGlobals);
            SummarizeBlocks(f, GivenOnly(), roots, mem, |f.blocks|) == mem
  {
    hide LongChain;
    var f := LongChain();
    var mem, vals := UnknownOnly(f, secretGlobals), GivenOnly().vals;
    LongShape();
    LongRest();
    var list := f.blocks[0].insts;
    forall i | i in list ensures SummarizeInst(f, vals, roots, mem, i) == mem {
      if i < SLOT { LongInst(i); }
    }
    StaysSummary(f, vals, roots, mem, list, |list|);
    assert SummarizeBlocks(f, GivenOnly(), roots, mem, 0) == mem;
  }

  /** The finished analysis of the long chain, whatever the secret globals. */
  ghost predicate Finished(a: Analysis) {
    && a.f == LongChain() && WellFormedFunction(a.f) && a.roots == RootsSpec(a.f, |a.f.values|)
    && IsTaintFixpoint(a.f, [true], a.secretGlobals, a.roots, a.mem, a.p, a.s)
  }

  lemma FinishedRoots(a: Analysis)
    requires Finished(a)
    ensures LongRoots(a.roots)
  {
    hide LongChain, WellFormedFunction, RootsSpec, IsTaintFixpoint, LosesARoot, RootsConsistent;
    LimitLosesTheSlot();
  }

  /** It is least, so nothing but the parameter is secret. */
  lemma OnlyGivenSecret(a: Analysis)
    requires Finished(a)
    ensures |a.s.vals| == 68 && LongRoots(a.roots)
    ensures forall v: nat :: a.IsSecretVal(v) <==> v == GIVEN
  {
    hide LongChain, WellFormedFunction, RootsSpec, IsSolution, ProblemOk, SummarizeBlocks, TaintDomain, LongRoots;
    FinishedRoots(a);
    BelowGivenOnly(a.f, a.secretGlobals, a.roots, a.mem, a.p, a.s);
    GivenSeeded(a.p, a.s, a.roots, a.mem);
    forall v: nat ensures a.IsSecretVal(v) <==> v == GIVEN {
      if v < |a.s.vals| { assert v != GIVEN ==> a.s.vals[v] != Secret; }
    }
  }

  lemma BelowGivenOnly(f: Function, secretGlobals: seq<bool>, roots: seq<Option<MemRoot>>, mem0: MemState,
                       p: Problem<Taint>, s: State<Taint>)
    requires f == LongChain() && LongRoots(roots) && IsTaintFixpoint(f, [true], secretGlobals, roots, mem0, p, s)
    ensures forall v: nat :: v < |s.vals| && v != GIVEN ==> s.vals[v] != Secret
  {
    hide LongChain, WellFormedFunction, IsSolution, ProblemOk, SummarizeBlocks, LongRoots;
    var mem := UnknownOnly(f, secretGlobals);
    var q := p.(dom := TaintDomain(f, [true], roots, mem));
    SolutionOk(p, s);
    OtherDomain(p, q);
    LongRest();
    GivenOnlySolves(roots, mem, q);
    UnknownOnlyStays(roots, secretGlobals);
    assert IsTaintSolution(f, [true], secretGlobals, roots, mem, q, GivenOnly());
    assert Below(p, s, GivenOnly());
    forall v: nat | v < |s.vals| && v != GIVEN ensures s.vals[v] != Secret {
      assert p.dom.le(s.vals[v], GivenOnly().vals[v]);
    }
  }

  lemma OtherDomain(p: Problem<Taint>, q: Problem<Taint>)
    requires ProblemOk(p) && q == p.(dom := q.dom)
    ensures ProblemOk(q)
  { }

  lemma GivenSeeded(p: Problem<Taint>, s: State<Taint>, roots: seq<Option<MemRoot>>, mem: MemState)
    requires p.f == LongChain() && p.dom == TaintDomain(p.f, [true], roots, mem) && IsSolution(p, s)
    ensures |s.vals| == 68 && s.vals[GIVEN] == Secret
  {
    hide LongChain, WellFormedFunction, ProblemOk;
    LongRest();
    LongShape();
    assert p.dom.le(Init(p, GIVEN), s.vals[GIVEN]);
  }

  // ------------------------------------------------------------------ two runs

  /** A machine whose values take one cell each. */
  ghost predicate IsCell(m: Machine) {
    && (forall op, vs :: m.pure(op, vs) == Undef)
    && (forall i :: m.size(i) == 1)
    && (forall v, n: nat {:trigger m.encode(v, n)} :: |m.encode(v, n)| == n && forall k :: 0 <= k < n ==> m.encode(v, n)[k] == v)
    && (forall cells {:trigger m.decode(cells)} :: m.decode(cells) == if cells == [] then Undef else cells[0])
  }

  lemma CellExists() returns (m: Machine)
    ensures IsCell(m)
  {
    m := Machine((op: nat, vs: seq<NonInterference.Val>) => Undef, (i: nat) => 1,
                 (v: NonInterference.Val, n: nat) => seq(n, _ => v),
                 (cells: seq<NonInterference.Val>) => if cells == [] then Undef else cells[0]);
  }

  function NothingDeclared(obj: Obj, off: int): bool {
    false
  }

  /** The start with the secret `x`. */
  function Given(x: int): Conf {
    Conf(0, 0, map[GIVEN := Num(x)], map[], 0)
  }

  const TO_SLOT: NonInterference.Val := Ptr(Slot(SLOT, 0), 0)

  /** The values once the slot is made and `k` bitcasts are done. */
  function EnvAt(x: int, k: nat): map<nat, NonInterference.Val>
    requires k <= SLOT
  {
    if k == 0 then map[GIVEN := Num(x)][SLOT := TO_SLOT] else EnvAt(x, k - 1)[SLOT - k := TO_SLOT]
  }

  lemma {:induction false} EnvHas(x: int, k: nat, v: nat)
    requires k <= SLOT
    ensures v in EnvAt(x, k) <==> SLOT - k <= v <= SLOT || v == GIVEN
    ensures v in EnvAt(x, k) ==> EnvAt(x, k)[v] == if v == GIVEN then Num(x) else TO_SLOT
    decreases k
  {
    if k > 0 { EnvHas(x, k - 1, v); }
  }

  /** What the runs need to know of the long chain. */
  ghost predicate LongOk(f: Function) {
    && |f.blocks| == 1 && |f.blocks[0].insts| == 68 && |f.insts| == 69 && |f.values| == 68
    && (forall k: nat :: k < 68 ==> f.blocks[0].insts[k] == if k <= SLOT then SLOT - k else k)
    && (forall i: nat :: i < SLOT ==> f.insts[i] == Inst(Bitcast, [i + 1], Some(i)))
    && f.insts[SLOT] == Inst(Alloca, [], Some(SLOT)) && f.insts[GIVEN] == Inst(Store(true), [0, GIVEN], None)
    && f.insts[READ] == Inst(Load(false), [SLOT], Some(READ))
    && (forall v: nat :: v < 68 ==> f.values[v].FromInst? || f.values[v].Param?)
  }

  lemma LongIsOk()
    ensures LongOk(LongChain())
  {
    hide LongChain;
    var f := LongChain();
    LongRest();
    LongShape();
    forall i: nat | i < SLOT ensures f.insts[i] == Inst(Bitcast, [i + 1], Some(i)) { LongInst(i); }
  }

  lemma ReadOne(f: Function, env: map<nat, NonInterference.Val>, v: nat)
    requires v in env && v < |f.values| && (f.values[v].FromInst? || f.values[v].Param?)
    ensures ReadAll(f, env, [v]) == Some([env[v]])
  {
    assert Read(f, env, v) == Some(env[v]);
    assert ReadAll(f, env, [v]).value == [env[v]];
  }

  lemma ReadTwo(f: Function, env: map<nat, NonInterference.Val>, v: nat, w: nat)
    requires v in env && v < |f.values| && (f.values[v].FromInst? || f.values[v].Param?)
    requires w in env && w < |f.values| && (f.values[w].FromInst? || f.values[w].Param?)
    ensures ReadAll(f, env, [v, w]) == Some([env[v], env[w]])
  {
    assert Read(f, env, v) == Some(env[v]) && Read(f, env, w) == Some(env[w]);
    assert ReadAll(f, env, [v, w]).value == [env[v], env[w]];
  }

  lemma OneMore(f: Function, m: Machine, c: Conf, n: nat, d: Conf, e: Conf)
    requires Steps(f, m, c, n) == Some(d) && Next(f, m, d) == Some(e)
    ensures Steps(f, m, c, n + 1) == Some(e)
  { }

  ghost predicate AtPos(f: Function, c: Conf, i: nat) {
    c.block < |f.blocks| && c.pos < |f.blocks[c.block].insts| && f.blocks[c.block].insts[c.pos] == i && i < |f.insts|
  }

  ghost predicate Bound(f: Function, c: Conf, v: nat, x: NonInterference.Val) {
    v in c.env && c.env[v] == x && v < |f.values| && (f.values[v].FromInst? || f.values[v].Param?)
  }

  lemma NextInst(f: Function, m: Machine, c: Conf, i: nat, ops: seq<NonInterference.Val>, e: Effect)
    requires AtPos(f, c, i) && ReadAll(f, c.env, f.insts[i].operands) == Some(ops)
    requires Execute(m, i, f.insts[i].kind, ops, c.mem, c.made) == Some(e)
    ensures Next(f, m, c)
            == Some(Conf(c.block, c.pos + 1, if f.insts[i].result.Some? then c.env[f.insts[i].result.value := e.value] else c.env,
                         e.mem, e.made))
  {
    hide Execute;
  }

  lemma NextMakes(f: Function, m: Machine, c: Conf, i: nat)
    requires AtPos(f, c, i) && f.insts[i] == Inst(Alloca, [], Some(i))
    ensures Next(f, m, c) == Some(Conf(c.block, c.pos + 1, c.env[i := Ptr(Slot(i, c.made), 0)], c.mem, c.made + 1))
  {
    hide Next;
    assert ReadAll(f, c.env, []) == Some([]);
    NextInst(f, m, c, i, [], Effect(Ptr(Slot(i, c.made), 0), c.mem, c.made + 1));
  }

  lemma NextCasts(f: Function, m: Machine, c: Conf, i: nat, v: nat, x: NonInterference.Val)
    requires AtPos(f, c, i) && f.insts[i] == Inst(Bitcast, [v], Some(i)) && Bound(f, c, v, x)
    ensures Next(f, m, c) == Some(Conf(c.block, c.pos + 1, c.env[i := x], c.mem, c.made))
  {
    hide Next;
    ReadOne(f, c.env, v);
    NextInst(f, m, c, i, [x], Effect(x, c.mem, c.made));
  }

  lemma NextStores(f: Function, m: Machine, c: Conf, i: nat, v: nat, x: NonInterference.Val, w: nat, y: NonInterference.Val)
    requires AtPos(f, c, i) && f.insts[i] == Inst(Store(true), [v, w], None)
    requires Bound(f, c, v, x) && x.Ptr? && Bound(f, c, w, y)
    ensures Next(f, m, c)
            == Some(Conf(c.block, c.pos + 1, c.env, WriteCells(c.mem, x.obj, x.off, m.encode(y, m.size(i))), c.made))
  {
    hide WriteCells, Next;
    ReadTwo(f, c.env, v, w);
    NextInst(f, m, c, i, [x, y], Effect(Undef, WriteCells(c.mem, x.obj, x.off, m.encode(y, m.size(i))), c.made));
  }

  lemma NextLoads(f: Function, m: Machine, c: Conf, i: nat, r: nat, v: nat, x: NonInterference.Val)
    requires AtPos(f, c, i) && f.insts[i] == Inst(Load(false), [v], Some(r)) && Bound(f, c, v, x) && x.Ptr?
    ensures Next(f, m, c)
            == Some(Conf(c.block, c.pos + 1, c.env[r := m.decode(ReadCells(c.mem, x.obj, x.off, m.size(i)))], c.mem, c.made))
  {
    hide ReadCells, Next;
    ReadOne(f, c.env, v);
    NextInst(f, m, c, i, [x], Effect(m.decode(ReadCells(c.mem, x.obj, x.off, m.size(i))), c.mem, c.made));
  }

  function AfterCasts(x: int, k: nat): Conf
    requires k <= SLOT
  {
    Conf(0, k + 1, EnvAt(x, k), map[], 1)
  }

  lemma EnvStep(x: int, k: nat)
    requires 1 <= k <= SLOT
    ensures EnvAt(x, k) == EnvAt(x, k - 1)[SLOT - k := TO_SLOT]
    ensures EnvAt(x, 0) == Given(x).env[SLOT := TO_SLOT]
  { }

  /** After the first `k + 1` of its steps the run from `x` has made the slot and `k`
      bitcasts. */
  lemma {:induction false} CastsRun(f: Function, m: Machine, x: int, k: nat)
    requires LongOk(f) && k <= SLOT
    ensures Steps(f, m, Given(x), k + 1) == Some(AfterCasts(x, k))
    decreases k
  {
    hide LongOk, Next, Steps, EnvAt;
    if k == 0 {
      NoSteps(f, m, Given(x));
      SlotMade(f, m, x);
      OneMore(f, m, Given(x), 0, Given(x), AfterCasts(x, 0));
    } else {
      CastsRun(f, m, x, k - 1);
      CastMade(f, m, x, k);
      OneMore(f, m, Given(x), k, AfterCasts(x, k - 1), AfterCasts(x, k));
    }
  }

  lemma SlotMade(f: Function, m: Machine, x: int)
    requires LongOk(f)
    ensures Next(f, m, Given(x)) == Some(AfterCasts(x, 0))
  {
    hide Next, EnvAt;
    EnvStep(x, 1);
    NextMakes(f, m, Given(x), SLOT);
  }

  lemma CastMade(f: Function, m: Machine, x: int, k: nat)
    requires LongOk(f) && 1 <= k <= SLOT
    ensures Next(f, m, AfterCasts(x, k - 1)) == Some(AfterCasts(x, k))
  {
    hide LongOk, Next, EnvAt, AtPos, Bound;
    ReadyToCast(f, x, k);
    EnvStep(x, k);
    NextCasts(f, m, AfterCasts(x, k - 1), SLOT - k, SLOT - k + 1, TO_SLOT);
  }

  lemma ReadyToCast(f: Function, x: int, k: nat)
    requires LongOk(f) && 1 <= k <= SLOT
    ensures AtPos(f, AfterCasts(x, k - 1), SLOT - k) && f.insts[SLOT - k] == Inst(Bitcast, [SLOT - k + 1], Some(SLOT - k))
    ensures Bound(f, AfterCasts(x, k - 1), SLOT - k + 1, TO_SLOT)
  {
    hide EnvAt;
    EnvHas(x, k - 1, SLOT - k + 1);
  }

  lemma NoSteps(f: Function, m: Machine, c: Conf)
    ensures Steps(f, m, c, 0) == Some(c)
  { }

  lemma CellCodes(m: Machine, x: NonInterference.Val, i: nat)
    requires IsCell(m)
    ensures m.size(i) == 1 && m.encode(x, 1) == [x] && m.decode([x]) == x
  {
    assert m.encode(x, 1)[0] == x;
  }

  lemma ReadyToStore(f: Function, x: int, k: nat)
    requires LongOk(f) && k == SLOT
    ensures AtPos(f, AfterCasts(x, k), GIVEN) && f.insts[GIVEN] == Inst(Store(true), [0, GIVEN], None)
    ensures Bound(f, AfterCasts(x, k), 0, TO_SLOT) && Bound(f, AfterCasts(x, k), GIVEN, Num(x))
  {
    hide EnvAt;
    EnvHas(x, k, 0);
    EnvHas(x, k, GIVEN);
  }

  /** The memory once the secret is in the slot. */
  function SlotMem(x: int): Memory {
    WriteCells(map[], Slot(SLOT, 0), 0, [Num(x)])
  }

  /** With the secret stored in the slot. */
  function Stored(x: int, k: nat): Conf
    requires k <= SLOT
  {
    Conf(0, READ, EnvAt(x, k), SlotMem(x), 1)
  }

  lemma StoreRuns(f: Function, m: Machine, x: int, k: nat)
    requires LongOk(f) && IsCell(m) && k == SLOT
    ensures Steps(f, m, Given(x), k + 2) == Some(Stored(x, k))
  {
    hide LongOk, IsCell, Next, Steps, EnvAt, SlotMem;
    CastsRun(f, m, x, k);
    StoreMade(f, m, x, k);
    OneMore(f, m, Given(x), k + 1, AfterCasts(x, k), Stored(x, k));
  }

  lemma StoreMade(f: Function, m: Machine, x: int, k: nat)
    requires LongOk(f) && IsCell(m) && k == SLOT
    ensures Next(f, m, AfterCasts(x, k)) == Some(Stored(x, k))
  {
    hide LongOk, IsCell, EnvAt, WriteCells, Next, AtPos, Bound;
    ReadyToStore(f, x, k);
    CellCodes(m, Num(x), GIVEN);
    NextStores(f, m, AfterCasts(x, k), GIVEN, 0, TO_SLOT, GIVEN, Num(x));
  }

  lemma ReadyToLoad(f: Function, x: int, k: nat)
    requires LongOk(f) && k == SLOT
    ensures AtPos(f, Stored(x, k), READ) && f.insts[READ] == Inst(Load(false), [SLOT], Some(READ))
    ensures Bound(f, Stored(x, k), SLOT, TO_SLOT)
  {
    hide EnvAt, SlotMem;
    EnvHas(x, k, SLOT);
  }

  /** And read back. */
  function Loaded(x: int, k: nat): Conf
    requires k <= SLOT
  {
    Stored(x, k).(pos := READ + 1, env := EnvAt(x, k)[READ := Num(x)])
  }

  lemma SlotRead(x: int)
    ensures ReadCells(SlotMem(x), Slot(SLOT, 0), 0, 1) == [Num(x)]
  {
    assert Cell(SlotMem(x), Slot(SLOT, 0), 0) == [Num(x)][0];
  }

  lemma LoadRuns(f: Function, m: Machine, x: int, k: nat)
    requires LongOk(f) && IsCell(m) && k == SLOT
    ensures Steps(f, m, Given(x), k + 3) == Some(Loaded(x, k))
  {
    hide LongOk, IsCell, EnvAt, SlotMem, Steps, Next;
    StoreRuns(f, m, x, k);
    LoadMade(f, m, x, k);
    OneMore(f, m, Given(x), k + 2, Stored(x, k), Loaded(x, k));
  }

  lemma LoadMade(f: Function, m: Machine, x: int, k: nat)
    requires LongOk(f) && IsCell(m) && k == SLOT
    ensures Next(f, m, Stored(x, k)) == Some(Loaded(x, k))
  {
    hide LongOk, IsCell, EnvAt, SlotMem, ReadCells, Next, AtPos, Bound;
    ReadyToLoad(f, x, k);
    CellCodes(m, Num(x), READ);
    SlotRead(x);
    NextLoads(f, m, Stored(x, k), READ, READ, SLOT, TO_SLOT);
  }

  // ------------------------------------------------------------ all that is asked

  lemma LongIsClean(a: Analysis)
    requires Finished(a)
    ensures Clean(a)
  {
    hide LongChain, WellFormedFunction, IsTaintFixpoint, RootsSpec;
    OnlyGivenSecret(a);
    LongRest();
    forall i: nat, b: nat | i < |a.f.insts| && Placed(a.f, i, b) && b < |a.s.exec| && a.s.exec[b] ensures CleanInst(a, i) {
      if i < SLOT { LongInst(i); }
    }
  }

  lemma CellsForgeNothing(m: Machine)
    requires IsCell(m)
    ensures NoForging(m)
  {
    forall cells: seq<NonInterference.Val> | m.decode(cells).Ptr?
      ensures exists k :: 0 <= k < |cells| && PointsInto(cells[k], m.decode(cells).obj)
    {
      assert PointsInto(cells[0], m.decode(cells).obj);
    }
  }

  /** Where the run from `x` is after `n` steps. */
  function At(x: int, n: nat): Conf
    requires n <= READ
  {
    if n == 0 then Given(x) else if n <= GIVEN then AfterCasts(x, n - 1) else Stored(x, SLOT)
  }

  lemma RunsTo(f: Function, m: Machine, x: int, n: nat)
    requires LongOk(f) && IsCell(m) && n <= READ
    ensures Steps(f, m, Given(x), n) == Some(At(x, n))
  {
    hide LongOk, IsCell, Steps, EnvAt, SlotMem;
    if n == 0 { NoSteps(f, m, Given(x)); } else if n <= GIVEN { CastsRun(f, m, x, n - 1); } else { StoreRuns(f, m, x, SLOT); }
  }

  lemma LongContract(a: Analysis, m: Machine, x: int, n: nat)
    requires LongOk(a.f) && LongRoots(a.roots) && n <= READ
    ensures Contract(a, NothingDeclared, m, At(x, n))
  {
    hide EnvAt, SlotMem;
    if n == GIVEN {
      EnvHas(x, SLOT, 0);
      EnvHas(x, SLOT, GIVEN);
      ReadTwo(a.f, EnvAt(x, SLOT), 0, GIVEN);
    }
  }

  lemma KeepsContract(a: Analysis, m: Machine, x: int, n: nat)
    requires Finished(a) && IsCell(m) && n == READ + 1
    ensures Contractual(a, NothingDeclared, m, Given(x), n)
  {
    hide LongChain, LongOk, IsCell, WellFormedFunction, IsTaintFixpoint, Steps, Contract, RootsSpec, LongRoots;
    FinishedRoots(a);
    LongIsOk();
    forall k: nat | k < n && Steps(a.f, m, Given(x), k).Some?
      ensures Contract(a, NothingDeclared, m, Steps(a.f, m, Given(x), k).value)
    {
      RunsTo(a.f, m, x, k);
      LongContract(a, m, x, k);
    }
  }

  lemma InputsAgree(a: Analysis, x: int, y: int)
    requires Finished(a)
    ensures PublicInputsAgree(a, NothingDeclared, Given(x), Given(y))
  {
    hide LongChain, WellFormedFunction, IsTaintFixpoint, RootsSpec, IsSecret;
    OnlyGivenSecret(a);
    LongRest();
    LongShape();
    assert NoSlots(a.f, Given(x)) && NoSlots(a.f, Given(y));
    assert EnvLow(a, Given(x).env, Given(y).env);
  }

  /** After `n` steps from `c`, value `v` is `x`. */
  ghost predicate HasAfter(f: Function, m: Machine, c: Conf, n: nat, v: nat, x: NonInterference.Val) {
    var d := Steps(f, m, c, n);
    d.Some? && v in d.value.env && d.value.env[v] == x
  }

  ghost predicate NamesNoGlobal(f: Function) {
    forall v: nat :: v < |f.values| ==> !f.values[v].GlobalRef?
  }

  /** All that non-interference asks but that the limit cuts no chain, and yet a value
      called public that differs after `n` steps. */
  ghost predicate Disagree(a: Analysis, declared: (Obj, int) -> bool, m: Machine, c1: Conf, c2: Conf, n: nat, v: nat) {
    && Clean(a) && NoForging(m) && NamesNoGlobal(a.f)
    && PublicInputsAgree(a, declared, c1, c2)
    && Contractual(a, declared, m, c1, n) && Contractual(a, declared, m, c2, n)
    && !a.IsSecretVal(v)
    && exists x, y :: x != y && HasAfter(a.f, m, c1, n, v, x) && HasAfter(a.f, m, c2, n, v, y)
  }

  /** So the condition is needed: on the long chain, two runs from inputs that agree
      on all that is public end with different values of one that the finished
      analysis, whatever it is, calls public. */
  lemma LimitBreaksNonInterference(a: Analysis, m: Machine, x: int, y: int, n: nat)
    requires Finished(a) && IsCell(m) && x != y && n == READ + 1
    ensures LosesARoot(a.f) && Disagree(a, NothingDeclared, m, Given(x), Given(y), n, READ)
  {
    hide Finished, IsCell, Clean, Contractual, PublicInputsAgree, NoForging, LosesARoot, Given, HasAfter, Disagree,
      NamesNoGlobal, IsSecret;
    LongLoses(a);
    LongIsClean(a);
    ReadIsPublic(a);
    CellsForgeNothing(m);
    InputsAgree(a, x, y);
    NoGlobals(a);
    KeepsContract(a, m, x, n);
    KeepsContract(a, m, y, n);
    ReadsItsOwn(a, m, x, n);
    ReadsItsOwn(a, m, y, n);
    DisagreeBy(a, NothingDeclared, m, Given(x), Given(y), n, READ, Num(x), Num(y));
  }

  lemma DisagreeBy(a: Analysis, declared: (Obj, int) -> bool, m: Machine, c1: Conf, c2: Conf, n: nat, v: nat,
                x: NonInterference.Val, y: NonInterference.Val)
    requires Clean(a) && NoForging(m) && NamesNoGlobal(a.f)
    requires PublicInputsAgree(a, declared, c1, c2)
    requires Contractual(a, declared, m, c1, n) && Contractual(a, declared, m, c2, n)
    requires !a.IsSecretVal(v) && x != y && HasAfter(a.f, m, c1, n, v, x) && HasAfter(a.f, m, c2, n, v, y)
    ensures Disagree(a, declared, m, c1, c2, n, v)
  {
    hide Clean, Contractual, PublicInputsAgree, NoForging, HasAfter;
  }

  lemma ReadsItsOwn(a: Analysis, m: Machine, x: int, n: nat)
    requires Finished(a) && IsCell(m) && n == READ + 1
    ensures HasAfter(a.f, m, Given(x), n, READ, Num(x))
  {
    hide LongChain, LongOk, IsCell, WellFormedFunction, RootsSpec, IsTaintFixpoint, EnvAt, SlotMem, Steps;
    LongIsOk();
    LoadRuns(a.f, m, x, SLOT);
  }

  lemma LongLoses(a: Analysis)
    requires Finished(a)
    ensures LosesARoot(a.f)
  {
    hide LongChain, WellFormedFunction, RootsSpec, LosesARoot, RootsConsistent, IsTaintFixpoint;
    LimitLosesTheSlot();
  }

  lemma ReadIsPublic(a: Analysis)
    requires Finished(a)
    ensures !a.IsSecretVal(READ)
  {
    hide LongChain, WellFormedFunction, IsTaintFixpoint, RootsSpec;
    OnlyGivenSecret(a);
  }

  lemma NoGlobals(a: Analysis)
    requires Finished(a)
    ensures NamesNoGlobal(a.f)
  {
    hide LongChain, WellFormedFunction, IsTaintFixpoint, RootsSpec;
    LongRest();
    LongShape();
  }

  /** The analysis does finish on the long chain, calling the loaded value public. */
  method AnalyseLong(secretGlobals: seq<bool>) returns (vals: seq<Taint>, ghost a: Analysis)
    ensures Finished(a) && a.secretGlobals == secretGlobals && vals == a.s.vals && !IsSecret(vals, READ)
  {
    hide LongChain, WellFormedFunction, IsTaintFixpoint, RootsSpec, LosesARoot, RootsConsistent;
    LimitLosesTheSlot();
    LongShape();
    var reachable, roots, mem;
    ghost var p, s;
    vals, reachable, roots, mem, p, s := Compute(LongChain(), [true], secretGlobals);
    a := Analysis(LongChain(), secretGlobals, roots, mem, p, s);
    ReadIsPublic(a);
  }
}
