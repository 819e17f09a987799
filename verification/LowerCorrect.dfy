/** Lowering preserves meaning: the blocks do what the statements do. */
module LowerCorrect {
  import opened Wrappers
  import opened Structured
  import opened BlockGraph
  import opened Lower
  import opened LowerShape
  import opened LowerExprs
  import opened LowerStmts
  import opened LowerRuns
  import opened LowerSealed
  import opened LowerPoints
  import opened LowerMatch

  // ------------------------------------------------------------ small runs

  /** Leaving for block `t`. */
  lemma LeaveRuns(prim: Primitives, g: Builder, b: Builder, t: nat, bb: nat, env: map<nat, int>, w: World)
    requires b.cur < |b.blocks| && !b.terminated && Grows(Leave(b, t, bb), g) && Plain(g, t)
    ensures Reach(prim, g.blocks, Here(b, env, w), At(t, 0, env, w))
    ensures Advance(prim, g.blocks, Here(b, env, w), At(t, 0, env, w))
  {
    hide Reach, Advance, Here, Grows, Plain, Emit;
    SwitchGrows(Emit(b, Br(t, [])), bb, g);
    BranchRuns(prim, g, b, t, [], env, w);
    EnterPlain(g, t, env, w);
  }

  /** A test that branches to one of two blocks without parameters. */
  lemma TestPlain(prim: Primitives, g: Builder, c: Expr, b: Builder, b2: Builder, t: nat, f: nat, bb: nat,
                  env: map<nat, int>, w: World)
    returns (env': map<nat, int>)
    requires BuilderOk(b) && !b.terminated && WithBlocks(LowerTruth(c, b).1, b2)
    requires Grows(EndWith(b2, CondBr(LowerTruth(c, b).0, t, [], f, []), bb), g) && Plain(g, t) && Plain(g, f)
    ensures var (x, w') := Eval(prim, c, w);
            var next := At(if x != 0 then t else f, 0, env', w');
            Reach(prim, g.blocks, Here(b, env, w), next) && Advance(prim, g.blocks, Here(b, env, w), next)
  {
    hide BuilderOk, Grows, Reach, Advance, Here, Agree, Plain, Emit, WithBlocks, LowerTruth;
    var term := CondBr(LowerTruth(c, b).0, t, [], f, []);
    SwitchGrows(Emit(b2, term), bb, g);
    env' := TestRuns(prim, g, c, b, b2, term, env, w);
    EnterPlain(g, t, env', Eval(prim, c, w).1);
    EnterPlain(g, f, env', Eval(prim, c, w).1);
  }

  lemma WithSelf(b: Builder)
    requires b.cur < |b.blocks|
    ensures WithBlocks(b, b)
  {
    assert b.blocks[..|b.blocks|] == b.blocks;
  }

  lemma WithNew(b: Builder, count: nat)
    requires b.cur < |b.blocks|
    ensures WithBlocks(b, NewBlocks(b, count))
  {
    assert (b.blocks + seq(count, _ => Code([], [])))[..|b.blocks|] == b.blocks;
  }

  // ------------------------------------------------- compound statements

  /** A compound statement about to be run from `b0`, with `k` to follow. */
  ghost predicate Placed(fn: Fn, s: Stmt, k: Kont, b0: Builder) {
    && CheckedFn(fn) && Compound(s) && Ready(s, b0) && Known(fn, s) && !b0.terminated
    && KontMatch(fn, k, LowerLive(s, b0))
  }

  lemma PlacedGrows(fn: Fn, s: Stmt, k: Kont, b0: Builder)
    requires Placed(fn, s, k, b0)
    ensures Grows(LowerLive(s, b0), LowerFn(fn)) && BuilderOk(b0) && BuilderOk(LowerLive(s, b0))
    ensures Checked(s) && Ready(s, b0) && !b0.terminated && b0.cur < |b0.blocks|
    ensures Plain(LowerFn(fn), End(s, b0)) && Plain(LowerFn(fn), Base(s, b0))
    ensures !s.Switch? ==> Plain(LowerFn(fn), Base(s, b0) + 1)
    ensures s.While? || s.DoWhile? || s.For? ==> Plain(LowerFn(fn), Again(s, b0)) && Plain(LowerFn(fn), Base(s, b0) + 2)
    ensures StartsAt(LowerLive(s, b0), End(s, b0))
  {
    hide Ready, Known, Grows, Plain, LowerLive, LowerFn, KontMatch, Base, BuilderOk, End, Again, StartsAt, Checked;
    KontGrows(fn, k, LowerLive(s, b0));
    EndPlain(s, b0, LowerFn(fn));
    ReadyOk(s, b0);
    CurInRange(b0);
    EndStarts(s, b0);
  }

  /** The end of a compound statement stands for what follows it. */
  lemma EndMatches(fn: Fn, s: Stmt, k: Kont, b0: Builder, env: map<nat, int>, w: World)
    requires Placed(fn, s, k, b0)
    ensures Matches(fn, Resume(k, w), At(End(s, b0), 0, env, w))
  {
    hide Ready, Known, Grows, Plain, LowerLive, LowerFn, KontMatch, Base, End, Matches;
    PlacedGrows(fn, s, k, b0);
    StartHere(LowerLive(s, b0), End(s, b0), env, w);
    ResumeMatches(fn, k, w, LowerLive(s, b0), env);
  }

  /** The block of a part stands for running it. */
  lemma EntryMatches(fn: Fn, s: Stmt, part: nat, k: Kont, b0: Builder, env: map<nat, int>, w: World)
    requires Placed(fn, s, k, b0) && HasPart(s, part) && !s.Switch? && !(s.For? && part == 0)
    ensures Matches(fn, Run(Part(s, part), Inside(s, part, k), w), At(Entry(s, part, b0), 0, env, w))
  {
    hide Ready, Known, Grows, Plain, LowerLive, LowerFn, KontMatch, Base, Entry, Matches, Open, StmtMatch;
    OpenStarts(s, part, b0);
    StartHere(Open(s, part, b0), Entry(s, part, b0), env, w);
    PartMatches(fn, s, part, k, b0);
    RunMatches(fn, Part(s, part), Inside(s, part, k), w, Open(s, part, b0), env);
  }

  lemma PartInFn(fn: Fn, s: Stmt, part: nat, k: Kont, b0: Builder)
    requires Placed(fn, s, k, b0) && HasPart(s, part)
    ensures Grows(Open(s, part, b0), LowerFn(fn)) && Grows(InPart(s, part, b0), LowerFn(fn)) && BuilderOk(InPart(s, part, b0))
  {
    hide Ready, Known, Grows, Plain, LowerLive, LowerFn, KontMatch, Base, Open, InPart, Progress, BuilderOk, StartsAt;
    PlacedGrows(fn, s, k, b0);
    PartGrows(s, part, b0);
    GrowsTrans(Open(s, part, b0), LowerLive(s, b0), LowerFn(fn));
    GrowsTrans(InPart(s, part, b0), LowerLive(s, b0), LowerFn(fn));
    PartOpens(s, part, b0);
    ProgressOk(Open(s, part, b0), InPart(s, part, b0), Labels(Part(s, part)), Marks(Part(s, part)), {});
  }

  /** The closing code of a statement is in the function, and where it begins. */
  lemma CloseInFn(fn: Fn, s: Stmt, k: Kont, b0: Builder)
    requires Placed(fn, s, k, b0)
    ensures var b1 := InPart(s, LastPart(s), b0);
            var bb := if s.DoWhile? || s.For? then Again(s, b0) else End(s, b0);
            var t := if s.While? || s.DoWhile? || s.For? then Again(s, b0) else End(s, b0);
            && Grows(Leave(Unstack(s, b1), t, bb), LowerFn(fn))
            && (s.DoWhile? || s.For? ==> StartsAt(Leave(Unstack(s, b1), t, bb), t) && BuilderOk(Leave(Unstack(s, b1), t, bb)))
  {
    hide Ready, Known, Grows, Plain, LowerLive, LowerFn, KontMatch, Base, Open, InPart, Progress, BuilderOk, StartsAt, Leave, Unstack, Close, Left;
    PlacedGrows(fn, s, k, b0);
    var b1 := InPart(s, LastPart(s), b0);
    LastPartShape(s, b0);
    CloseGrows(s, b0, b1, Labels(s), Marks(s));
    CompoundCloses(s, b0);
    EndStarts(s, b0);
    var bb := if s.DoWhile? || s.For? then Again(s, b0) else End(s, b0);
    var t := if s.While? || s.DoWhile? || s.For? then Again(s, b0) else End(s, b0);
    GrowsTrans(Leave(Unstack(s, b1), t, bb), LowerLive(s, b0), LowerFn(fn));
    if s.DoWhile? || s.For? { AgainOk(s, b0, b1); }
  }

  lemma AgainOk(s: Stmt, b0: Builder, b1: Builder)
    requires (s.DoWhile? || s.For?) && BuilderOk(b0)
    requires Progress(b0, Unstack(s, b1), Labels(s), Marks(s), Left(s, LastPart(s), b0))
    ensures BuilderOk(Leave(Unstack(s, b1), Again(s, b0), Again(s, b0)))
  {
    hide Progress, BuilderOk, Base;
    var extra := Left(s, LastPart(s), b0);
    var t := Again(s, b0);
    ProgressBegin(b0, Unstack(s, b1), Labels(s), Marks(s), extra, Br(t, []), t);
    ProgressOk(b0, Leave(Unstack(s, b1), t, t), Labels(s), Marks(s), extra - {t});
  }

  // ------------------------------------------------------------------- loops

  /** The two ways out of a loop's test. */
  lemma TestMatches(prim: Primitives, fn: Fn, s: Stmt, part: nat, test: Option<Expr>, k: Kont, b0: Builder,
                    env: map<nat, int>, w: World)
    requires Placed(fn, s, k, b0) && HasPart(s, part) && (s.While? || s.DoWhile? || (s.For? && part == 1))
    ensures var (x, w') := if test.Some? then Eval(prim, test.value, w) else (1, w);
            Matches(fn, TestLoop(prim, test, s, part, k, w),
                    At(if x != 0 then Entry(s, part, b0) else End(s, b0), 0, env, w'))
  {
    hide Placed, Matches, Entry, End;
    var (x, w') := if test.Some? then Eval(prim, test.value, w) else (1, w);
    EndMatches(fn, s, k, b0, env, w');
    EntryMatches(fn, s, part, k, b0, env, w');
  }

  /** The test of a `while`, run from its head. */
  lemma WhileTest(prim: Primitives, g: Builder, s: Stmt, b0: Builder, env: map<nat, int>, w: World)
    returns (env': map<nat, int>)
    requires s.While? && BuilderOk(b0) && !b0.terminated && Grows(Open(s, 0, b0), g)
    requires Plain(g, |b0.blocks| + 1) && Plain(g, |b0.blocks| + 2)
    ensures var n := |b0.blocks|; var (x, w') := Eval(prim, s.cond, w);
            Reach(prim, g.blocks, At(n, 0, env, w), At(if x != 0 then n + 1 else n + 2, 0, env', w'))
  {
    hide Reach, Advance, Grows, Plain, LowerTruth, Emit, BuilderOk, WithBlocks, StartsAt;
    WhileStarts(s, b0);
    var n := |b0.blocks|;
    var b2 := EndWith(NewBlocks(b0, 3), Br(n, []), n);
    StartHere(b2, n, env, w);
    TruthShape(s.cond, b2);
    var (cv, b3) := LowerTruth(s.cond, b2);
    StillOk(b2, b3, {});
    CurInRange(b3);
    WithSelf(b3);
    var b4 := EndWith(b3, CondBr(cv, n + 1, [], n + 2, []), n + 1);
    SameCode(b4, Open(s, 0, b0), g);
    env' := TestPlain(prim, g, s.cond, b2, b3, n + 1, n + 2, n + 1, env, w);
  }

  lemma WhileHead(prim: Primitives, fn: Fn, s: Stmt, k: Kont, b0: Builder, env: map<nat, int>, w: World)
    returns (c': Conf)
    requires Placed(fn, s, k, b0) && s.While?
    ensures Reach(prim, LowerFn(fn).blocks, At(Base(s, b0), 0, env, w), c')
    ensures Matches(fn, AfterPart(prim, s, 0, k, w), c')
  {
    hide Placed, Matches, Reach, Grows, Plain, LowerFn, BuilderOk, StartsAt, Open, AfterPart, TestLoop, Eval, LowerLive, InPart, Checked, Ready;
    PlacedGrows(fn, s, k, b0);
    PartInFn(fn, s, 0, k, b0);
    AfterWhile(prim, s, k, w);
    var n := |b0.blocks|;
    var env' := WhileTest(prim, LowerFn(fn), s, b0, env, w);
    TestMatches(prim, fn, s, 0, Some(s.cond), k, b0, env', w);
    var (x, w') := Eval(prim, s.cond, w);
    c' := At(if x != 0 then n + 1 else n + 2, 0, env', w');
  }

  lemma AfterWhile(prim: Primitives, s: Stmt, k: Kont, w: World)
    requires s.While?
    ensures AfterPart(prim, s, 0, k, w) == TestLoop(prim, Some(s.cond), s, 0, k, w)
  { }

  lemma SameCode(b: Builder, b1: Builder, g: Builder)
    requires Grows(b1, g) && b.blocks == b1.blocks && b.labels == b1.labels && b.next == b1.next
    ensures Grows(b, g)
  { }

  lemma DoTail(prim: Primitives, fn: Fn, s: Stmt, k: Kont, b0: Builder, env: map<nat, int>, w: World)
    returns (c': Conf)
    requires Placed(fn, s, k, b0) && s.DoWhile?
    ensures Reach(prim, LowerFn(fn).blocks, At(Again(s, b0), 0, env, w), c')
    ensures Matches(fn, AfterPart(prim, s, 0, k, w), c')
  {
    hide Placed, Matches, Reach, Advance, Grows, Plain, LowerFn, LowerTruth, Emit, BuilderOk, WithBlocks, StartsAt, InPart, Leave, Unstack;
    PlacedGrows(fn, s, k, b0);
    CloseInFn(fn, s, k, b0);
    CompoundCloses(s, b0);
    var g := LowerFn(fn);
    var n := |b0.blocks|;
    var b3 := Leave(Unstack(s, InPart(s, 0, b0)), n + 1, n + 1);
    StartHere(b3, n + 1, env, w);
    StartsLive(b3, n + 1);
    TruthShape(s.cond, b3);
    var (cv, b4) := LowerTruth(s.cond, b3);
    StillOk(b3, b4, {});
    CurInRange(b4);
    WithSelf(b4);
    UnstackIs(s, InPart(s, 0, b0));
    var env' := TestPlain(prim, g, s.cond, b3, b4, n, n + 2, n + 2, env, w);
    TestMatches(prim, fn, s, 0, Some(s.cond), k, b0, env', w);
    var (x, w') := Eval(prim, s.cond, w);
    c' := At(if x != 0 then n else n + 2, 0, env', w');
  }

  lemma UnstackIs(s: Stmt, b: Builder)
    requires s.While? || s.DoWhile? || s.For?
    ensures Unstack(s, b) == LeaveLoop(b)
  { }

  lemma ForHeadRuns(prim: Primitives, fn: Fn, s: Stmt, k: Kont, b0: Builder, env: map<nat, int>, w: World)
    returns (c': Conf)
    requires Placed(fn, s, k, b0) && s.For?
    ensures Reach(prim, LowerFn(fn).blocks, At(Base(s, b0), 0, env, w), c')
    ensures Matches(fn, TestLoop(prim, s.test, s, 1, k, w), c')
  {
    hide Placed, Matches, Reach, Advance, Grows, Plain, LowerFn, LowerTruth, Emit, BuilderOk, WithBlocks, StartsAt, InPart, Base,
         Open, TestLoop, NewBlocks;
    PlacedGrows(fn, s, k, b0);
    PartInFn(fn, s, 1, k, b0);
    ForInitGrows(s, b0);
    ForOpens(s, b0);
    var g := LowerFn(fn);
    var b1 := if s.init.Some? then InPart(s, 0, b0) else b0;
    var n := |b1.blocks|;
    var b2 := EndWith(NewBlocks(b1, 4), Br(n, []), n);
    ForStarts(s.test, b1);
    StartHere(b2, n, env, w);
    StartsLive(b2, n);
    ForPlain(s, b0, g);
    SameCode(ForHead(s.test, n, b2), Open(s, 1, b0), g);
    match s.test
    case None =>
      CurInRange(b2);
      LeaveRuns(prim, g, b2, n + 1, n + 1, env, w);
      TestMatches(prim, fn, s, 1, None, k, b0, env, w);
      c' := At(n + 1, 0, env, w);
    case Some(c) =>
      TruthShape(c, b2);
      var (cv, b3) := LowerTruth(c, b2);
      StillOk(b2, b3, {});
      CurInRange(b3);
      WithSelf(b3);
      var env' := TestPlain(prim, g, c, b2, b3, n + 1, n + 3, n + 1, env, w);
      TestMatches(prim, fn, s, 1, Some(c), k, b0, env', w);
      var (x, w') := Eval(prim, c, w);
      c' := At(if x != 0 then n + 1 else n + 3, 0, env', w');
  }

  lemma ForPlain(s: Stmt, b0: Builder, g: Builder)
    requires s.For? && Plain(g, End(s, b0)) && Plain(g, Base(s, b0)) && Plain(g, Base(s, b0) + 1)
    ensures Plain(g, Base(s, b0) + 3) && Entry(s, 1, b0) == Base(s, b0) + 1 && End(s, b0) == Base(s, b0) + 3
    ensures Again(s, b0) == Base(s, b0) + 2
  { }

  lemma ForStep(prim: Primitives, fn: Fn, s: Stmt, k: Kont, b0: Builder, env: map<nat, int>, w: World)
    returns (c': Conf)
    requires Placed(fn, s, k, b0) && s.For?
    ensures Reach(prim, LowerFn(fn).blocks, At(Again(s, b0), 0, env, w), c')
    ensures Matches(fn, AfterPart(prim, s, 1, k, w), c')
  {
    hide Placed, Matches, Reach, Advance, Grows, Plain, LowerFn, Emit, BuilderOk, Ahead, StartsAt, InPart, Base, Leave, Unstack;
    PlacedGrows(fn, s, k, b0);
    CloseInFn(fn, s, k, b0);
    CompoundCloses(s, b0);
    var g := LowerFn(fn);
    var n := Base(s, b0);
    var b3 := Leave(Unstack(s, InPart(s, 1, b0)), n + 2, n + 2);
    ForPlain(s, b0, g);
    StartHere(b3, n + 2, env, w);
    StartsLive(b3, n + 2);
    UnstackIs(s, InPart(s, 1, b0));
    var b4 := if s.step.Some? then LowerEffect(s.step.value, b3) else b3;
    assert LowerLive(s, b0) == EndWith(b4, Br(n, []), n + 3);
    SwitchGrows(Emit(b4, Br(n, [])), n + 3, g);
    EmitGrows(b4, Br(n, []), 0);
    GrowsTrans(b4, Emit(b4, Br(n, [])), g);
    var env' := env;
    var w' := w;
    if s.step.Some? {
      EffectShape(s.step.value, b3);
      env' := EffectRuns(prim, g, s.step.value, b3, env, w);
      w' := Eval(prim, s.step.value, w).1;
      StillOk(b3, b4, {});
    } else {
      ReachSelf(prim, g.blocks, Here(b3, env, w));
    }
    CurInRange(b4);
    BranchRuns(prim, g, b4, n, [], env', w');
    EnterPlain(g, n, env', w');
    c' := ForHeadRuns(prim, fn, s, k, b0, env', w');
    ReachTrans(prim, g.blocks, Here(b3, env, w), Here(b4, env', w'), At(n, 0, env', w'));
    ReachTrans(prim, g.blocks, Here(b3, env, w), At(n, 0, env', w'), c');
  }

  /** From where `continue` leads: once round the loop. */
  lemma AgainRuns(prim: Primitives, fn: Fn, s: Stmt, part: nat, k: Kont, b0: Builder, env: map<nat, int>, w: World)
    returns (c': Conf)
    requires Placed(fn, s, k, b0) && HasPart(s, part) && Continuable(s, part)
    ensures Reach(prim, LowerFn(fn).blocks, At(Again(s, b0), 0, env, w), c')
    ensures Matches(fn, AfterPart(prim, s, part, k, w), c')
  {
    hide Placed, Matches, Reach, LowerFn;
    if s.While? { c' := WhileHead(prim, fn, s, k, b0, env, w); }
    else if s.DoWhile? { c' := DoTail(prim, fn, s, k, b0, env, w); }
    else { c' := ForStep(prim, fn, s, k, b0, env, w); }
  }

  // ----------------------------------------------------------- one step each

  function SizeOf(s: Stmt): nat {
    match s
    case Block(ss) => 2 + SizeIn(ss)
    case For(init, _, _, _) => if init.Some? then 2 + SizeOf(init.value) else 1
    case _ => 1
  }

  function SizeIn(ss: Stmts): nat {
    match ss case NoStmts => 0 case MoreStmts(s, rest) => 1 + SizeOf(s) + SizeIn(rest)
  }

  function KontSize(k: Kont): nat {
    match k
    case Stop => 0
    case Rest(ss, k1) => 1 + SizeIn(ss) + KontSize(k1)
    case Inside(_, _, k1) => KontSize(k1)
  }

  /** What a step without an instruction uses up. */
  function Silence(st: State): nat {
    match st
    case Run(s, k, _) => SizeOf(s) + KontSize(k)
    case Resume(k, _) => KontSize(k)
    case Finished(_, _) => 0
  }

  /** `c'` stands for `st'`, the step from `st`, and is reached from `c`. */
  ghost predicate Stepped(prim: Primitives, fn: Fn, st: State, c: Conf, st': State, c': Conf) {
    && Reach(prim, LowerFn(fn).blocks, c, c') && Matches(fn, st', c')
    && (Advance(prim, LowerFn(fn).blocks, c, c') || Silence(st') < Silence(st))
  }

  lemma SteppedBy(prim: Primitives, fn: Fn, st: State, c: Conf, c1: Conf, st': State, c': Conf)
    requires Reach(prim, LowerFn(fn).blocks, c, c1) && Advance(prim, LowerFn(fn).blocks, c, c1)
    requires Reach(prim, LowerFn(fn).blocks, c1, c') && Matches(fn, st', c')
    ensures Stepped(prim, fn, st, c, st', c')
  {
    hide Reach, Advance, Matches, LowerFn;
    ReachTrans(prim, LowerFn(fn).blocks, c, c1, c');
  }

  /** Part `part` of `s` has been run to its end. */
  lemma ResumeInside(prim: Primitives, fn: Fn, s: Stmt, part: nat, k: Kont, b0: Builder, env: map<nat, int>, w: World)
    returns (c': Conf)
    requires Placed(fn, s, k, b0) && HasPart(s, part) && !InPart(s, part, b0).terminated
    ensures Stepped(prim, fn, Resume(Inside(s, part, k), w), Here(InPart(s, part, b0), env, w),
                    AfterPart(prim, s, part, k, w), c')
  {
    hide Placed, Matches, Reach, Advance, Grows, Plain, LowerFn, BuilderOk, StartsAt, InPart, Base, Leave, Unstack, Here;
    var g := LowerFn(fn);
    var b := InPart(s, part, b0);
    PlacedGrows(fn, s, k, b0);
    PartInFn(fn, s, part, k, b0);
    CurInRange(b);
    var st := Resume(Inside(s, part, k), w);
    if part == LastPart(s) {
      CloseInFn(fn, s, k, b0);
      var bb := if s.DoWhile? || s.For? then Again(s, b0) else End(s, b0);
      var t := if s.While? || s.DoWhile? || s.For? then Again(s, b0) else End(s, b0);
      UnstackSame(s, b, env, w);
      LeaveRuns(prim, g, Unstack(s, b), t, bb, env, w);
      if Continuable(s, part) {
        c' := AgainRuns(prim, fn, s, part, k, b0, env, w);
      } else {
        c' := At(t, 0, env, w);
        EndMatches(fn, s, k, b0, env, w);
        ReachSelf(prim, g.blocks, c');
      }
      SteppedBy(prim, fn, st, Here(b, env, w), At(t, 0, env, w), AfterPart(prim, s, part, k, w), c');
    } else if s.If? {
      PartInFn(fn, s, 1, k, b0);
      ElseOpens(s, b0);
      LeaveRuns(prim, g, b, End(s, b0), Base(s, b0) + 2, env, w);
      c' := At(End(s, b0), 0, env, w);
      EndMatches(fn, s, k, b0, env, w);
      ReachSelf(prim, g.blocks, c');
      SteppedBy(prim, fn, st, Here(b, env, w), c', AfterPart(prim, s, part, k, w), c');
    } else {
      c' := InitDone(prim, fn, s, k, b0, env, w);
    }
  }

  lemma UnstackSame(s: Stmt, b: Builder, env: map<nat, int>, w: World)
    ensures Here(Unstack(s, b), env, w) == Here(b, env, w) && Unstack(s, b).terminated == b.terminated
    ensures Unstack(s, b).cur == b.cur && Unstack(s, b).blocks == b.blocks
  { }

  /** The clause of a `for` has been run, or there is none. */
  lemma InitDone(prim: Primitives, fn: Fn, s: Stmt, k: Kont, b0: Builder, env: map<nat, int>, w: World)
    returns (c': Conf)
    requires Placed(fn, s, k, b0) && s.For?
    ensures var b1 := if s.init.Some? then InPart(s, 0, b0) else b0;
            forall st :: Stepped(prim, fn, st, Here(b1, env, w), TestLoop(prim, s.test, s, 1, k, w), c')
  {
    hide Placed, Matches, Reach, Advance, Grows, Plain, LowerFn, BuilderOk, StartsAt, InPart, Base, Here, Emit;
    var g := LowerFn(fn);
    PlacedGrows(fn, s, k, b0);
    PartInFn(fn, s, 1, k, b0);
    ForInitGrows(s, b0);
    var b1 := if s.init.Some? then InPart(s, 0, b0) else b0;
    var n := Base(s, b0);
    var b2 := NewBlocks(b1, 4);
    CurInRange(b1);
    NewHere(b1, 4, env, w);
    GrowsTrans(EndWith(b2, Br(n, []), n), Open(s, 1, b0), g);
    SwitchGrows(Emit(b2, Br(n, [])), n, g);
    BranchRuns(prim, g, b2, n, [], env, w);
    EnterPlain(g, n, env, w);
    c' := ForHeadRuns(prim, fn, s, k, b0, env, w);
    forall st ensures Stepped(prim, fn, st, Here(b1, env, w), TestLoop(prim, s.test, s, 1, k, w), c') {
      SteppedBy(prim, fn, st, Here(b1, env, w), At(n, 0, env, w), TestLoop(prim, s.test, s, 1, k, w), c');
    }
  }

  lemma NewHere(b: Builder, count: nat, env: map<nat, int>, w: World)
    requires b.cur < |b.blocks|
    ensures Here(NewBlocks(b, count), env, w) == Here(b, env, w)
    ensures NewBlocks(b, count).cur < |NewBlocks(b, count).blocks|
  { }

  lemma RunIf(prim: Primitives, fn: Fn, s: Stmt, k: Kont, b: Builder, env: map<nat, int>, w: World)
    returns (c': Conf)
    requires Placed(fn, s, k, b) && s.If?
    ensures Stepped(prim, fn, Run(s, k, w), Here(b, env, w), Step(prim, fn, Run(s, k, w)), c')
  {
    hide Placed, Matches, Reach, Advance, Grows, Plain, LowerFn, BuilderOk, StartsAt, InPart, Here, Emit, LowerTruth, WithBlocks;
    var g := LowerFn(fn);
    PlacedGrows(fn, s, k, b);
    PartInFn(fn, s, 0, k, b);
    if s.els.Some? { BlocksPlain(s, b, g) by { assert Grows(LowerLive(s, b), g); } }
    TruthShape(s.cond, b);
    var (cv, b1) := LowerTruth(s.cond, b);
    StillOk(b, b1, {});
    CurInRange(b1);
    var n := |b1.blocks|;
    WithNew(b1, Width(s));
    var f := if s.els.Some? then n + 2 else n + 1;
    var env' := TestPlain(prim, g, s.cond, b, NewBlocks(b1, Width(s)), n, f, n, env, w);
    var (x, w') := Eval(prim, s.cond, w);
    c' := At(if x != 0 then n else f, 0, env', w');
    EntryMatches(fn, s, 0, k, b, env', w');
    if s.els.Some? { EntryMatches(fn, s, 1, k, b, env', w'); } else { EndMatches(fn, s, k, b, env', w'); }
    ReachSelf(prim, g.blocks, c');
    SteppedBy(prim, fn, Run(s, k, w), Here(b, env, w), c', Step(prim, fn, Run(s, k, w)), c');
  }

  lemma RunLoop(prim: Primitives, fn: Fn, s: Stmt, k: Kont, b: Builder, env: map<nat, int>, w: World)
    returns (c': Conf)
    requires Placed(fn, s, k, b) && (s.While? || s.DoWhile?)
    ensures Stepped(prim, fn, Run(s, k, w), Here(b, env, w), Step(prim, fn, Run(s, k, w)), c')
  {
    hide Placed, Matches, Reach, Advance, Grows, Plain, LowerFn, BuilderOk, StartsAt, InPart, Here, Emit, Open;
    var g := LowerFn(fn);
    var n := |b.blocks|;
    PlacedGrows(fn, s, k, b);
    PartInFn(fn, s, 0, k, b);
    CurInRange(b);
    NewHere(b, 3, env, w);
    var b2 := EndWith(NewBlocks(b, 3), Br(n, []), n);
    if s.While? { WhileStarts(s, b); } else { DoOpens(s, b); }
    GrowsTrans(b2, Open(s, 0, b), g);
    SwitchGrows(Emit(NewBlocks(b, 3), Br(n, [])), n, g);
    BranchRuns(prim, g, NewBlocks(b, 3), n, [], env, w);
    EnterPlain(g, n, env, w);
    if s.While? {
      c' := WhileHead(prim, fn, s, k, b, env, w);
    } else {
      c' := At(n, 0, env, w);
      EntryMatches(fn, s, 0, k, b, env, w);
      ReachSelf(prim, g.blocks, c');
    }
    SteppedBy(prim, fn, Run(s, k, w), Here(b, env, w), At(n, 0, env, w), Step(prim, fn, Run(s, k, w)), c');
  }

  lemma DoOpens(s: Stmt, b: Builder)
    requires s.DoWhile?
    ensures Grows(EndWith(NewBlocks(b, 3), Br(|b.blocks|, []), |b.blocks|), Open(s, 0, b))
  {
    hide Emit;
    var b2 := EndWith(NewBlocks(b, 3), Br(|b.blocks|, []), |b.blocks|);
    GrowsSelf(b2);
    StackedGrow(b2, b2, Open(s, 0, b));
  }

  lemma RunFor(prim: Primitives, fn: Fn, s: Stmt, k: Kont, b: Builder, env: map<nat, int>, w: World)
    returns (c': Conf)
    requires Placed(fn, s, k, b) && s.For?
    ensures Stepped(prim, fn, Run(s, k, w), Here(b, env, w), Step(prim, fn, Run(s, k, w)), c')
  {
    hide Matches, Reach, Advance, Grows, Plain, LowerFn, BuilderOk, StartsAt, InPart, Here, Emit, Open, Ready, Known, KontMatch, LowerLive;
    if s.init.Some? {
      OpenFirst(s, b);
      PartMatches(fn, s, 0, k, b);
      c' := Here(b, env, w);
      RunMatches(fn, s.init.value, Inside(s, 0, k), w, b, env);
      ReachSelf(prim, LowerFn(fn).blocks, c');
    } else {
      c' := InitDone(prim, fn, s, k, b, env, w);
    }
  }

  // ------------------------------------------------------------------ switch

  lemma {:induction false} SelectedIs(cases: seq<Arm>, n: nat, default: Option<nat>, marks: nat, x: int)
    ensures Selected(Cases(cases, n), if default.Some? then n + default.value else n + marks, x)
            == match Chosen(cases, default, x) case Some(id) => n + id case None => n + marks
    decreases |cases|
  {
    if cases != [] {
      assert Cases(cases, n)[1..] == Cases(cases[1..], n);
      SelectedIs(cases[1..], n, default, marks, x);
    }
  }

  lemma {:induction false} ChosenMark(cases: seq<Arm>, default: Option<nat>, marks: nat, x: int)
    requires forall i :: 0 <= i < |cases| ==> cases[i].mark < marks
    requires default.Some? ==> default.value < marks
    ensures Chosen(cases, default, x).Some? ==> Chosen(cases, default, x).value < marks
    decreases |cases|
  {
    if cases != [] { ChosenMark(cases[1..], default, marks, x); }
  }

  lemma {:induction false} FindWorld(s: Stmt, p: Place, k: Kont, w: World)
    ensures Find(s, p, k, w).Some? ==> Find(s, p, k, w).value.w == w
    decreases s
  {
    if s.Block? { FindInWorld(s.stmts, p, k, w); }
    else if s.Labeled? { FindWorld(s.inner, p, k, w); }
    else {
      if HasPart(s, 0) { FindWorld(Part(s, 0), p, Inside(s, 0, k), w); }
      if HasPart(s, 1) { FindWorld(Part(s, 1), p, Inside(s, 1, k), w); }
    }
  }

  lemma {:induction false} FindInWorld(ss: Stmts, p: Place, k: Kont, w: World)
    ensures FindIn(ss, p, k, w).Some? ==> FindIn(ss, p, k, w).value.w == w
    decreases ss
  {
    if ss.MoreStmts? { FindWorld(ss.head, p, Rest(ss.tail, k), w); FindInWorld(ss.tail, p, k, w); }
  }

  lemma LandingMatches(fn: Fn, st: State, bb: nat, b2: Builder, env: map<nat, int>)
    requires Landing(fn, st, bb, b2)
    ensures Matches(fn, st, At(bb, 0, env, st.w))
  {
    hide StmtMatch, ResumeMatch, Matches;
    StartHere(b2, bb, env, st.w);
    match st
    case Run(s, k, w) => RunMatches(fn, s, k, w, b2, env);
    case Resume(k, w) => ResumeMatches(fn, k, w, b2, env);
  }

  /** The scrutinee evaluated, the switch branches. */
  lemma SwitchBranch(prim: Primitives, g: Builder, s: Stmt, b: Builder, env: map<nat, int>, w: World)
    returns (env': map<nat, int>)
    requires s.Switch? && BuilderOk(b) && !b.terminated && Grows(Open(s, 0, b), g)
    requires forall i: nat :: Base(s, b) <= i < Base(s, b) + Width(s) ==> Plain(g, i)
    requires ArmsOk(s)
    ensures var (x, w') := Eval(prim, s.scrutinee, w);
            && Reach(prim, g.blocks, Here(b, env, w), At(SwitchGoal(s, b, x), 0, env', w'))
            && Advance(prim, g.blocks, Here(b, env, w), At(SwitchGoal(s, b, x), 0, env', w'))
  {
    hide BuilderOk, Grows, Reach, Advance, Here, Emit, Plain, Agree, LowerExpr, Eval, Selected, Chosen, Enter, Cases, NewBlocks, Open, ArmsOk;
    var (r, b1) := LowerExpr(s.scrutinee, b);
    var b2, term := NewBlocks(b1, s.marks + 1), SwitchTerm(s, b);
    SwitchInCode(g, s, b);
    env' := ExprRuns(prim, g, s.scrutinee, b, env, w);
    var (x, w') := Eval(prim, s.scrutinee, w);
    NewHere(b1, s.marks + 1, env', w');
    var to := SwitchGoal(s, b, x);
    SwitchSelects(s, b, x);
    EnterPlain(g, to, env', w');
    SwitchStep(prim, g, b2, term, env', w', x);
    ReachTrans(prim, g.blocks, Here(b, env, w), Here(b1, env', w'), At(to, 0, env', w'));
  }

  function SwitchTerm(s: Stmt, b: Builder): Item
    requires s.Switch?
  {
    var (r, b1) := LowerExpr(s.scrutinee, b);
    var n := |b1.blocks|;
    SwitchBr(r, if s.default.Some? then n + s.default.value else n + s.marks, Cases(s.cases, n))
  }

  /** Where the switch goes on `x`. */
  function SwitchGoal(s: Stmt, b: Builder, x: int): nat
    requires s.Switch?
  {
    match Chosen(s.cases, s.default, x) case Some(id) => Base(s, b) + id case None => Base(s, b) + s.marks
  }

  lemma SwitchSelects(s: Stmt, b: Builder, x: int)
    requires s.Switch? && ArmsOk(s)
    ensures var term := SwitchTerm(s, b);
            && Selected(term.cases, term.default, x) == SwitchGoal(s, b, x)
            && Base(s, b) <= SwitchGoal(s, b, x) < Base(s, b) + Width(s)
  {
    hide LowerExpr;
    var n := |LowerExpr(s.scrutinee, b).1.blocks|;
    SelectedIs(s.cases, n, s.default, s.marks, x);
    ChosenMark(s.cases, s.default, s.marks, x);
  }

  /** The scrutinee's code and the branch are in the function. */
  lemma SwitchInCode(g: Builder, s: Stmt, b: Builder)
    requires s.Switch? && BuilderOk(b) && !b.terminated && Grows(Open(s, 0, b), g)
    ensures var b1 := LowerExpr(s.scrutinee, b).1; var b2, term := NewBlocks(b1, s.marks + 1), SwitchTerm(s, b);
            && Grows(b1, g) && b1.cur < |b1.blocks| && b2.cur < |b2.blocks| && b2.cur < |g.blocks|
            && |b2.blocks[b2.cur].items| < |g.blocks[b2.cur].items|
            && g.blocks[b2.cur].items[|b2.blocks[b2.cur].items|] == term
  {
    hide BuilderOk, Grows, Emit, LowerExpr, Cases;
    ExprShape(s.scrutinee, b);
    var b1 := LowerExpr(s.scrutinee, b).1;
    var b2, term := NewBlocks(b1, s.marks + 1), SwitchTerm(s, b);
    SameCode(Emit(b2, term), Open(s, 0, b), g) by { EmitKeeps(b2, term); }
    EmitGrows(b2, term, 0);
    GrowsTrans(b2, Emit(b2, term), g);
    AddedGrows(b1, s.marks + 1);
    GrowsTrans(b1, b2, g);
    StillOk(b, b1, {});
    CurInRange(b1);
    NewHere(b1, s.marks + 1, map[], World(map[], []));
    ItemHere(g, b2, term);
  }

  lemma SwitchStep(prim: Primitives, g: Builder, b: Builder, term: Item, env: map<nat, int>, w: World, x: int)
    requires term.SwitchBr? && Get(env, term.scrutinee) == Some(x)
    requires b.cur < |g.blocks| && b.cur < |b.blocks| && |b.blocks[b.cur].items| < |g.blocks[b.cur].items|
    requires g.blocks[b.cur].items[|b.blocks[b.cur].items|] == term
    ensures var c := Enter(g.blocks, Selected(term.cases, term.default, x), [], env, w);
            Reach(prim, g.blocks, Here(b, env, w), c) && Advance(prim, g.blocks, Here(b, env, w), c)
  {
    OneStep(prim, g.blocks, Here(b, env, w));
  }

  lemma RunSwitch(prim: Primitives, fn: Fn, s: Stmt, k: Kont, b: Builder, env: map<nat, int>, w: World)
    returns (c': Conf)
    requires Placed(fn, s, k, b) && s.Switch?
    ensures Stepped(prim, fn, Run(s, k, w), Here(b, env, w), Step(prim, fn, Run(s, k, w)), c')
  {
    hide Placed, Matches, Reach, Advance, Grows, Plain, LowerFn, BuilderOk, StartsAt, InPart, Here, Emit, Open, Known, Ready, Landing, Base;
    var g := LowerFn(fn);
    PlacedGrows(fn, s, k, b);
    PartInFn(fn, s, 0, k, b);
    BlocksPlain(s, b, g);
    SwitchArms(s);
    var env' := SwitchBranch(prim, g, s, b, env, w);
    var (x, w') := Eval(prim, s.scrutinee, w);
    match Chosen(s.cases, s.default, x)
    case None =>
      c' := At(End(s, b), 0, env', w');
      EndMatches(fn, s, k, b, env', w');
      ReachSelf(prim, g.blocks, c');
      SteppedBy(prim, fn, Run(s, k, w), Here(b, env, w), c', Step(prim, fn, Run(s, k, w)), c');
    case Some(id) =>
      ChosenMark(s.cases, s.default, s.marks, x);
      assert id in Marks(s.body);
      FindSome(s.body, AtMark(id), Inside(s, 0, k), w');
      FindWorld(s.body, AtMark(id), Inside(s, 0, k), w');
      c' := At(Base(s, b) + id, 0, env', w');
      MarkMatches(fn, s, id, k, b, env', w');
      ReachSelf(prim, g.blocks, c');
      SteppedBy(prim, fn, Run(s, k, w), Here(b, env, w), c', Step(prim, fn, Run(s, k, w)), c');
  }

  lemma SwitchArms(s: Stmt)
    requires s.Switch? && Checked(s)
    ensures ArmsOk(s)
  { }

  /** The block of a mark stands for entering the switch there. */
  lemma MarkMatches(fn: Fn, s: Stmt, id: nat, k: Kont, b: Builder, env: map<nat, int>, w: World)
    requires Placed(fn, s, k, b) && s.Switch? && id < s.marks && Find(s.body, AtMark(id), Inside(s, 0, k), w).Some?
    ensures Matches(fn, Find(s.body, AtMark(id), Inside(s, 0, k), w).value, At(Base(s, b) + id, 0, env, w))
  {
    hide Matches, LowerFn, BuilderOk, StartsAt, InPart, Open, Known, Ready, Landing, Base, LowerLive, LowerStmt, Progress;
    PartOpens(s, 0, b);
    PartKnown(fn, s, 0);
    assert Within(fn, s, 0, b, InPart(s, 0, b));
    FindWorld(s.body, AtMark(id), Inside(s, 0, k), w);
    var bb, b2 := FindMatch(fn, s.body, AtMark(id), Inside(s, 0, k), w, Open(s, 0, b));
    SwitchTop(fn, s, b);
    LandingMatches(fn, Find(s.body, AtMark(id), Inside(s, 0, k), w).value, bb, b2, env);
  }

  lemma SwitchTop(fn: Fn, s: Stmt, b: Builder)
    requires s.Switch? && Known(fn, s)
    ensures Top(Open(s, 0, b)) == Consecutive(Base(s, b), s.marks)
  {
    hide Open, Base;
    OpenKeeps(s, 0, b, LabelsIn(fn.body));
  }

  // -------------------------------------------------------------------- jumps

  lemma SteppedOnce(prim: Primitives, fn: Fn, st: State, c: Conf, st': State, c': Conf)
    requires Reach(prim, LowerFn(fn).blocks, c, c') && Advance(prim, LowerFn(fn).blocks, c, c') && Matches(fn, st', c')
    ensures Stepped(prim, fn, st, c, st', c')
  { }

  lemma SteppedSilently(prim: Primitives, fn: Fn, st: State, c: Conf, st': State)
    requires Matches(fn, st', c) && Silence(st') < Silence(st)
    ensures Stepped(prim, fn, st, c, st', c)
  {
    hide Reach, Matches, LowerFn;
    ReachSelf(prim, LowerFn(fn).blocks, c);
  }

  lemma FinishGrows(b: Builder, term: Item, g: Builder)
    requires Grows(Finish(b, term), g)
    ensures Grows(Emit(b, term), g)
  { }

  lemma RunBreak(prim: Primitives, fn: Fn, k: Kont, b: Builder, env: map<nat, int>, w: World)
    returns (c': Conf)
    requires CheckedFn(fn) && StmtMatch(fn, Break, k, b)
    ensures Stepped(prim, fn, Run(Break, k, w), Here(b, env, w), Step(prim, fn, Run(Break, k, w)), c')
  {
    hide Matches, Reach, Advance, Grows, Plain, LowerFn, BuilderOk, StartsAt, Here, Emit, KontMatch, ResumeMatch;
    var b' := LowerStmt(Break, b);
    KontGrows(fn, k, b');
    BreakStacks(b);
    var b1 := BreakMatch(fn, k, b');
    c' := Here(b, env, w);
    match BreakTo(k)
    case None =>
      assert b' == b && ResumeMatch(fn, k, b) by { ResumeBy(fn, k, b); }
      ResumeMatches(fn, k, w, b, env);
      SteppedSilently(prim, fn, Run(Break, k, w), c', Resume(k, w));
    case Some(k1) =>
      FinishGrows(b, Br(Last(b.breaks), []), LowerFn(fn));
      assert b.cur < |b.blocks| by { ReadyOk(Break, b); CurInRange(b); }
      BranchRuns(prim, LowerFn(fn), b, Last(b.breaks), [], env, w);
      EnterPlain(LowerFn(fn), Last(b.breaks), env, w);
      c' := At(Last(b.breaks), 0, env, w);
      StartHere(b1, Last(b.breaks), env, w);
      ResumeMatches(fn, k1, w, b1, env);
      SteppedOnce(prim, fn, Run(Break, k, w), Here(b, env, w), Resume(k1, w), c');
  }

  lemma ResumeBy(fn: Fn, k: Kont, b: Builder)
    requires KontMatch(fn, k, b) && !b.terminated
    ensures ResumeMatch(fn, k, b)
  { }

  lemma BreakStacks(b: Builder)
    ensures !b.terminated && b.breaks == [] ==> LowerStmt(Break, b) == b
    ensures !b.terminated && b.breaks != [] ==> LowerStmt(Break, b) == Finish(b, Br(Last(b.breaks), []))
    ensures !b.terminated && b.continues == [] ==> LowerStmt(Continue, b) == b
    ensures !b.terminated && b.continues != [] ==> LowerStmt(Continue, b) == Finish(b, Br(Last(b.continues), []))
    ensures !b.terminated ==> LowerStmt(Break, b).breaks == b.breaks && LowerStmt(Continue, b).continues == b.continues
  { }

  lemma RunContinue(prim: Primitives, fn: Fn, k: Kont, b: Builder, env: map<nat, int>, w: World)
    returns (c': Conf)
    requires CheckedFn(fn) && StmtMatch(fn, Continue, k, b)
    ensures Stepped(prim, fn, Run(Continue, k, w), Here(b, env, w), Step(prim, fn, Run(Continue, k, w)), c')
  {
    hide Matches, Reach, Advance, Grows, Plain, LowerFn, BuilderOk, StartsAt, Here, Emit, KontMatch, ResumeMatch, Ready, Known, Again;
    var b' := LowerStmt(Continue, b);
    KontGrows(fn, k, b');
    BreakStacks(b);
    var b0 := ContinueMatch(fn, k, b');
    c' := Here(b, env, w);
    match ContinueTo(k)
    case None =>
      assert b' == b && ResumeMatch(fn, k, b) by { ResumeBy(fn, k, b); }
      ResumeMatches(fn, k, w, b, env);
      SteppedSilently(prim, fn, Run(Continue, k, w), c', Resume(k, w));
    case Some(Inside(s, part, k1)) =>
      FinishGrows(b, Br(Last(b.continues), []), LowerFn(fn));
      assert b.cur < |b.blocks| by { ReadyOk(Continue, b); CurInRange(b); }
      BranchRuns(prim, LowerFn(fn), b, Last(b.continues), [], env, w);
      assert Placed(fn, s, k1, b0);
      PlacedGrows(fn, s, k1, b0);
      EnterPlain(LowerFn(fn), Last(b.continues), env, w);
      c' := AgainRuns(prim, fn, s, part, k1, b0, env, w);
      SteppedBy(prim, fn, Run(Continue, k, w), Here(b, env, w), At(Last(b.continues), 0, env, w),
                AfterPart(prim, s, part, k1, w), c');
    case _ =>
  }

  /** The blocks of labels take no parameters. */
  lemma LabelPlain(b: Builder, l: nat, g: Builder)
    requires BuilderOk(b) && l in b.labels && Grows(b, g)
    ensures Plain(g, b.labels[l]) && l in g.labels && g.labels[l] == b.labels[l]
  {
    PlainKept(b, g, b.labels[l]);
  }

  lemma RunGoto(prim: Primitives, fn: Fn, s: Stmt, k: Kont, b: Builder, env: map<nat, int>, w: World)
    returns (c': Conf)
    requires CheckedFn(fn) && s.Goto? && StmtMatch(fn, s, k, b)
    ensures Stepped(prim, fn, Run(s, k, w), Here(b, env, w), Step(prim, fn, Run(s, k, w)), c')
  {
    hide Matches, Reach, Advance, Grows, Plain, LowerFn, BuilderOk, StartsAt, Here, Emit, KontMatch, ResumeMatch, Landing, LabelBlock, LowerBlock;
    var g := LowerFn(fn);
    var (bb, b1) := LabelBlock(b, s.id);
    var b' := Finish(b1, Br(bb, []));
    assert LowerStmt(s, b) == b';
    KontGrows(fn, k, b');
    LabelBlockShape(b, s.id);
    LabelHere(b, s.id, env, w);
    FinishGrows(b1, Br(bb, []), g);
    EmitKeeps(b1, Br(bb, []));
    LabelPlain(b', s.id, g);
    BranchRuns(prim, g, b1, bb, [], env, w);
    EnterPlain(g, bb, env, w);
    c' := At(bb, 0, env, w);
    GotoMatches(fn, s.id, bb, env, w);
    SteppedOnce(prim, fn, Run(s, k, w), Here(b, env, w), Step(prim, fn, Run(s, k, w)), c');
  }

  lemma LabelHere(b: Builder, id: nat, env: map<nat, int>, w: World)
    requires BuilderOk(b)
    ensures var b1 := LabelBlock(b, id).1; Here(b1, env, w) == Here(b, env, w) && b1.cur < |b1.blocks|
  { }

  /** A label's block in the lowered function stands for going to the label. */
  lemma GotoMatches(fn: Fn, id: nat, bb: nat, env: map<nat, int>, w: World)
    requires CheckedFn(fn) && id in LabelsIn(fn.body) && id in LowerFn(fn).labels && LowerFn(fn).labels[id] == bb
    ensures FindIn(fn.body, AtLabel(id), Stop, w).Some?
    ensures Matches(fn, FindIn(fn.body, AtLabel(id), Stop, w).value, At(bb, 0, env, w))
  {
    hide Matches, Grows, BuilderOk, StartsAt, Landing, LowerBlock;
    FreshReady(fn);
    FindInSome(fn.body, AtLabel(id), Stop, w);
    FindInWorld(fn.body, AtLabel(id), Stop, w);
    var at, b2 := FindInMatch(fn, fn.body, AtLabel(id), Stop, w, Fresh());
    EndLabels(fn, LowerBlock(fn.body, Fresh()));
    LandingMatches(fn, FindIn(fn.body, AtLabel(id), Stop, w).value, at, b2, env);
  }

  lemma EndLabels(fn: Fn, b: Builder)
    ensures LowerEnd(fn, b).labels == b.labels
  { }

  // ------------------------------------------------------- everything else

  lemma RetRuns(prim: Primitives, g: Builder, b: Builder, v: Option<Ref>, env: map<nat, int>, w: World, r: Option<int>)
    requires b.cur < |b.blocks| && Grows(Emit(b, Ret(v)), g)
    requires if v.None? then r == None else Get(env, v.value) == r && r.Some?
    ensures Reach(prim, g.blocks, Here(b, env, w), Returned(r, w)) && Advance(prim, g.blocks, Here(b, env, w), Returned(r, w))
  {
    ItemHere(g, b, Ret(v));
    OneStep(prim, g.blocks, Here(b, env, w));
  }

  lemma RunReturn(prim: Primitives, fn: Fn, s: Stmt, k: Kont, b: Builder, env: map<nat, int>, w: World)
    returns (c': Conf)
    requires CheckedFn(fn) && s.Return? && StmtMatch(fn, s, k, b)
    ensures Stepped(prim, fn, Run(s, k, w), Here(b, env, w), Step(prim, fn, Run(s, k, w)), c')
  {
    hide Reach, Advance, Grows, LowerFn, BuilderOk, Here, Emit, KontMatch, Agree;
    var g := LowerFn(fn);
    KontGrows(fn, k, LowerStmt(s, b));
    ReadyOk(s, b);
    CurInRange(b);
    match s.value
    case None =>
      FinishGrows(b, Ret(None), g);
      RetRuns(prim, g, b, None, env, w, None);
      c' := Returned(None, w);
    case Some(e) =>
      ExprShape(e, b);
      var (v, b1) := LowerExpr(e, b);
      StillOk(b, b1, {});
      CurInRange(b1);
      FinishGrows(b1, Ret(Some(v)), g);
      EmitGrows(b1, Ret(Some(v)), 0);
      GrowsTrans(b1, Emit(b1, Ret(Some(v))), g);
      var env' := ExprRuns(prim, g, e, b, env, w);
      var (x, w') := Eval(prim, e, w);
      RetRuns(prim, g, b1, Some(v), env', w', Some(x));
      c' := Returned(Some(x), w');
      ReachTrans(prim, g.blocks, Here(b, env, w), Here(b1, env', w'), c');
  }

  /** Falling into the block of a label or mark. */
  lemma FallRuns(prim: Primitives, g: Builder, b: Builder, bb: nat, env: map<nat, int>, w: World)
    requires BuilderOk(b) && !b.terminated && Pending(b, bb) && Grows(Leave(b, bb, bb), g) && Plain(g, bb)
    ensures var c := Here(Leave(b, bb, bb), env, w);
            Reach(prim, g.blocks, Here(b, env, w), c) && Advance(prim, g.blocks, Here(b, env, w), c)
  {
    hide Reach, Advance, Grows, Plain, Emit;
    LeaveRuns(prim, g, b, bb, bb, env, w);
    LeaveStarts(b, bb);
    StartHere(Leave(b, bb, bb), bb, env, w);
  }

  lemma RunLabeled(prim: Primitives, fn: Fn, s: Stmt, k: Kont, b: Builder, env: map<nat, int>, w: World)
    returns (c': Conf)
    requires CheckedFn(fn) && s.Labeled? && StmtMatch(fn, s, k, b)
    ensures Stepped(prim, fn, Run(s, k, w), Here(b, env, w), Step(prim, fn, Run(s, k, w)), c')
  {
    hide Matches, Reach, Advance, Grows, Plain, LowerFn, BuilderOk, Here, KontMatch, LowerStmt, LabelBlock, Pending, Progress, LabelsFree, MarksFree, Leave, Checked;
    var g := LowerFn(fn);
    var b2 := AtLabelBlock(b, s.id);
    LowerLabeled(s, b);
    AtLabelShape(s, b);
    LabeledKnown(fn, s);
    StmtShape(s.inner, b2);
    ProgressOk(b2, LowerStmt(s, b), Labels(s.inner), Marks(s.inner), {});
    KontGrows(fn, k, LowerStmt(s, b));
    GrowsTrans(b2, LowerStmt(s, b), g);
    InnerReady(s, b);
    LabelBlockShape(b, s.id);
    var (bb, b1) := LabelBlock(b, s.id);
    ProgressOk(b, b1, {}, {}, {});
    assert Pending(b1, bb) by { if s.id in b.labels { LabelSame(b, s.id); } }
    LabelHere(b, s.id, env, w);
    SameLive(b, s.id);
    LeaveGrows(b1, bb, bb);
    GrowsTrans(b1, b2, g);
    LabelPlain(b1, s.id, g);
    FallRuns(prim, g, b1, bb, env, w);
    c' := Here(b2, env, w);
    RunMatches(fn, s.inner, k, w, b2, env) by { MatchBy(fn, s.inner, k, b2); }
    SteppedOnce(prim, fn, Run(s, k, w), Here(b, env, w), Run(s.inner, k, w), c');
  }

  lemma MatchBy(fn: Fn, s: Stmt, k: Kont, b: Builder)
    requires Ready(s, b) && Known(fn, s) && !b.terminated && KontMatch(fn, k, LowerStmt(s, b))
    ensures StmtMatch(fn, s, k, b)
  { }

  lemma RunMark(prim: Primitives, fn: Fn, s: Stmt, k: Kont, b: Builder, env: map<nat, int>, w: World)
    returns (c': Conf)
    requires CheckedFn(fn) && s.CaseMark? && StmtMatch(fn, s, k, b)
    ensures Stepped(prim, fn, Run(s, k, w), Here(b, env, w), Step(prim, fn, Run(s, k, w)), c')
  {
    hide Matches, Reach, Advance, Grows, Plain, LowerFn, BuilderOk, Here, KontMatch, Pending, Leave;
    var g := LowerFn(fn);
    MarkFree(b, s.id);
    var bb := Top(b)[s.id];
    var b2 := Leave(b, bb, bb);
    assert LowerStmt(s, b) == b2;
    KontGrows(fn, k, b2);
    MarkPlain(b, s.id);
    LeaveGrows(b, bb, bb);
    GrowsTrans(b, b2, g);
    PlainKept(b, g, bb);
    FallRuns(prim, g, b, bb, env, w);
    LeaveIs(b, bb);
    c' := Here(b2, env, w);
    ResumeMatches(fn, k, w, b2, env);
    SteppedOnce(prim, fn, Run(s, k, w), Here(b, env, w), Resume(k, w), c');
  }

  lemma MarkPlain(b: Builder, id: nat)
    requires BuilderOk(b) && id < |Top(b)|
    ensures Plain(b, Top(b)[id])
  {
    assert MarksOk(b, b.marks[|b.marks| - 1]);
  }

  // ------------------------------------------------------------------ any step

  lemma CompoundPlaced(fn: Fn, s: Stmt, k: Kont, b: Builder)
    requires CheckedFn(fn) && Compound(s) && StmtMatch(fn, s, k, b)
    ensures Placed(fn, s, k, b)
  { }

  /** A statement that needs no step of its own kind. */
  lemma RunPlain(prim: Primitives, fn: Fn, s: Stmt, k: Kont, b: Builder, env: map<nat, int>, w: World)
    returns (c': Conf)
    requires CheckedFn(fn) && (s.Empty? || s.Do? || s.Block?) && StmtMatch(fn, s, k, b)
    ensures Stepped(prim, fn, Run(s, k, w), Here(b, env, w), Step(prim, fn, Run(s, k, w)), c')
  {
    hide Matches, Reach, Advance, Grows, LowerFn, BuilderOk, Here, ResumeMatch, Agree, LowerBlock;
    c' := Here(b, env, w);
    match s
    case Empty =>
      ResumeBy(fn, k, b);
      ResumeMatches(fn, k, w, b, env);
      SteppedSilently(prim, fn, Run(s, k, w), c', Resume(k, w));
    case Block(ss) =>
      BlockParts(fn, s, b);
      assert KontMatch(fn, Rest(ss, k), b);
      ResumeBy(fn, Rest(ss, k), b);
      ResumeMatches(fn, Rest(ss, k), w, b, env);
      SteppedSilently(prim, fn, Run(s, k, w), c', Resume(Rest(ss, k), w));
    case Do(e) =>
      assert LowerStmt(s, b) == LowerEffect(e, b);
      KontGrows(fn, k, LowerEffect(e, b));
      ReadyOk(s, b);
      var env' := EffectRuns(prim, LowerFn(fn), e, b, env, w);
      EffectShape(e, b);
      StillOk(b, LowerEffect(e, b), {});
      c' := Here(LowerEffect(e, b), env', Eval(prim, e, w).1);
      ResumeBy(fn, k, LowerEffect(e, b));
      ResumeMatches(fn, k, Eval(prim, e, w).1, LowerEffect(e, b), env');
  }

  lemma StepRun(prim: Primitives, fn: Fn, s: Stmt, k: Kont, w: World, c: Conf) returns (c': Conf)
    requires CheckedFn(fn) && Matches(fn, Run(s, k, w), c)
    ensures Stepped(prim, fn, Run(s, k, w), c, Step(prim, fn, Run(s, k, w)), c')
  {
    var b: Builder, env: map<nat, int> :| RunPoint(fn, s, k, w, b, env, c);
    hide Stepped, StmtMatch, Placed, Step, Here;
    if Compound(s) { CompoundPlaced(fn, s, k, b); }
    if s.If? { c' := RunIf(prim, fn, s, k, b, env, w); }
    else if s.While? || s.DoWhile? { c' := RunLoop(prim, fn, s, k, b, env, w); }
    else if s.For? { c' := RunFor(prim, fn, s, k, b, env, w); }
    else if s.Switch? { c' := RunSwitch(prim, fn, s, k, b, env, w); }
    else if s.Break? { c' := RunBreak(prim, fn, k, b, env, w); }
    else if s.Continue? { c' := RunContinue(prim, fn, k, b, env, w); }
    else if s.Goto? { c' := RunGoto(prim, fn, s, k, b, env, w); }
    else if s.Return? { c' := RunReturn(prim, fn, s, k, b, env, w); }
    else if s.Labeled? { c' := RunLabeled(prim, fn, s, k, b, env, w); }
    else if s.CaseMark? { c' := RunMark(prim, fn, s, k, b, env, w); }
    else { c' := RunPlain(prim, fn, s, k, b, env, w); }
  }

  lemma StepResume(prim: Primitives, fn: Fn, k: Kont, w: World, c: Conf) returns (c': Conf)
    requires CheckedFn(fn) && Matches(fn, Resume(k, w), c)
    ensures Stepped(prim, fn, Resume(k, w), c, Step(prim, fn, Resume(k, w)), c')
  {
    hide Reach, Advance, Grows, LowerFn, BuilderOk, LowerBlock, LowerStmt, Placed, LowerLive, InPart, Ready, Known, KnownIn;
    var b: Builder, env: map<nat, int> :| ResumePoint(fn, k, w, b, env, c);
    match k
    case Stop => c' := StepStop(prim, fn, w, b, env);
    case Rest(NoStmts, k1) =>
      c' := c;
      NothingLeft(fn, k1, b);
      ResumeMatches(fn, k1, w, b, env);
      SteppedSilently(prim, fn, Resume(k, w), c, Resume(k1, w));
    case Rest(MoreStmts(s, rest), k1) =>
      c' := c;
      NextLeft(fn, s, rest, k1, b);
      RunMatches(fn, s, Rest(rest, k1), w, b, env);
      SteppedSilently(prim, fn, Resume(k, w), c, Run(s, Rest(rest, k1), w));
    case Inside(s, part, k1) =>
      var b0: Builder :| Within(fn, s, part, b0, b) && KontMatch(fn, k1, LowerLive(s, b0));
      PlacedBy(fn, s, part, k1, b0);
      c' := ResumeInside(prim, fn, s, part, k1, b0, env, w);
  }

  lemma PlacedBy(fn: Fn, s: Stmt, part: nat, k: Kont, b0: Builder)
    requires CheckedFn(fn) && HasPart(s, part) && Ready(s, b0) && Known(fn, s) && !b0.terminated && KontMatch(fn, k, LowerLive(s, b0))
    ensures Placed(fn, s, k, b0)
  { }

  lemma NothingLeft(fn: Fn, k: Kont, b: Builder)
    requires ResumeMatch(fn, Rest(NoStmts, k), b)
    ensures ResumeMatch(fn, k, b)
  { }

  lemma NextLeft(fn: Fn, s: Stmt, rest: Stmts, k: Kont, b: Builder)
    requires ResumeMatch(fn, Rest(MoreStmts(s, rest), k), b)
    ensures StmtMatch(fn, s, Rest(rest, k), b)
  {
    hide BuilderOk, Progress, LabelsFree, MarksFree, LowerStmt;
    var ss := MoreStmts(s, rest);
    HeadReady(ss, b);
    HeadKnown(fn, ss);
    StmtShape(s, b);
    TailReady(ss, b);
  }

  /** Falling off the end of the function. */
  lemma StepStop(prim: Primitives, fn: Fn, w: World, b: Builder, env: map<nat, int>) returns (c': Conf)
    requires CheckedFn(fn) && ResumeMatch(fn, Stop, b)
    ensures Stepped(prim, fn, Resume(Stop, w), Here(b, env, w), Step(prim, fn, Resume(Stop, w)), c')
  {
    hide Reach, Advance, Grows, BuilderOk, LowerBlock, Here, Emit;
    BodyOk(fn);
    CurInRange(b);
    var v := if fn.isVoid then None else Some(Lit(0));
    var r := if fn.isVoid then None else Some(0);
    FinishGrows(b, Ret(v), LowerFn(fn)) by { GrowsSelf(LowerFn(fn)); }
    RetRuns(prim, LowerFn(fn), b, v, env, w, r);
    c' := Returned(r, w);
    SteppedOnce(prim, fn, Resume(Stop, w), Here(b, env, w), Finished(r, w), c');
  }

  /** Every step of the statement machine is followed by the blocks. */
  lemma StepMatches(prim: Primitives, fn: Fn, st: State, c: Conf) returns (c': Conf)
    requires CheckedFn(fn) && !st.Finished? && Matches(fn, st, c)
    ensures Stepped(prim, fn, st, c, Step(prim, fn, st), c')
  {
    hide Stepped, Matches, Step;
    match st
    case Run(s, k, w) => c' := StepRun(prim, fn, s, k, w, c);
    case Resume(k, w) => c' := StepResume(prim, fn, k, w, c);
  }

  // -------------------------------------------------------------- whole runs

  /** A function about to run. */
  function Begin(fn: Fn, w: World): State {
    Resume(Rest(fn.body, Stop), w)
  }

  function BeginBlocks(env: map<nat, int>, w: World): Conf {
    At(0, 0, env, w)
  }

  lemma BeginMatches(fn: Fn, env: map<nat, int>, w: World)
    requires CheckedFn(fn)
    ensures Matches(fn, Begin(fn, w), BeginBlocks(env, w))
  {
    hide BuilderOk, LowerBlock, Matches;
    FreshReady(fn);
    assert KontMatch(fn, Stop, LowerBlock(fn.body, Fresh()));
    assert KontMatch(fn, Rest(fn.body, Stop), Fresh());
    ResumeMatches(fn, Rest(fn.body, Stop), w, Fresh(), env);
  }

  /** After any number of steps of the statements, the blocks reach a point that
      stands for where they are. */
  lemma {:induction false} BlocksFollow(prim: Primitives, fn: Fn, env: map<nat, int>, w: World, n: nat) returns (c: Conf)
    requires CheckedFn(fn)
    ensures Matches(fn, Steps(prim, fn, Begin(fn, w), n), c)
    ensures Reach(prim, LowerFn(fn).blocks, BeginBlocks(env, w), c)
  {
    hide Matches, Reach, Advance, LowerFn, Step;
    if n == 0 {
      BeginMatches(fn, env, w);
      c := BeginBlocks(env, w);
      ReachSelf(prim, LowerFn(fn).blocks, c);
    } else {
      c := BlocksFollow(prim, fn, env, w, n - 1);
      var st := Steps(prim, fn, Begin(fn, w), n - 1);
      if !st.Finished? {
        var c1 := StepMatches(prim, fn, st, c);
        ReachTrans(prim, LowerFn(fn).blocks, BeginBlocks(env, w), c, c1);
        c := c1;
      } else {
        FinishedStays(prim, fn, st);
      }
    }
  }

  lemma FinishedStays(prim: Primitives, fn: Fn, st: State)
    requires st.Finished?
    ensures Step(prim, fn, st) == st
  { }

  /** A result of the statements is the result of the blocks. */
  lemma SameResult(prim: Primitives, fn: Fn, env: map<nat, int>, w: World, n: nat)
    requires CheckedFn(fn) && Steps(prim, fn, Begin(fn, w), n).Finished?
    ensures var st := Steps(prim, fn, Begin(fn, w), n);
            exists m: nat :: Running(prim, LowerFn(fn).blocks, BeginBlocks(env, w), m) == Returned(st.result, st.w)
  {
    var c := BlocksFollow(prim, fn, env, w, n);
  }

  lemma {:induction false} EndedStays(prim: Primitives, g: seq<Code>, c: Conf, n: nat)
    requires !c.At?
    ensures Running(prim, g, c, n) == c
    decreases n
  {
    if n > 0 { EndedStays(prim, g, c, n - 1); }
  }

  /** However long the blocks run, some state of the statements stands for a
      point at least that far on. */
  lemma {:induction false} KeepsPace(prim: Primitives, fn: Fn, st: State, c: Conf, need: nat)
    returns (n: nat, m: nat)
    requires CheckedFn(fn) && Matches(fn, st, c)
    ensures m >= need && Matches(fn, Steps(prim, fn, st, n), Running(prim, LowerFn(fn).blocks, c, m))
    decreases need, Silence(st)
  {
    hide Matches, Reach, LowerFn, Step, Silence;
    var g := LowerFn(fn).blocks;
    if need == 0 {
      n, m := 0, 0;
    } else if st.Finished? {
      n, m := 0, need;
      EndedHere(fn, st, c);
      EndedStays(prim, g, c, need);
    } else {
      var c1 := StepMatches(prim, fn, st, c);
      var st1 := Step(prim, fn, st);
      var j := Distance(prim, g, c, c1);
      var n1, m1 := KeepsPace(prim, fn, st1, c1, if j >= need then 0 else need - j);
      StepsFrom(prim, fn, st, n1);
      RunningAdds(prim, g, c, j, m1);
      n, m := n1 + 1, j + m1;
    }
  }

  lemma EndedHere(fn: Fn, st: State, c: Conf)
    requires st.Finished? && Matches(fn, st, c)
    ensures !c.At?
  { }

  lemma Distance(prim: Primitives, g: seq<Code>, c: Conf, c': Conf) returns (j: nat)
    requires Reach(prim, g, c, c')
    ensures Running(prim, g, c, j) == c' && (Advance(prim, g, c, c') ==> j > 0)
  {
    if Advance(prim, g, c, c') {
      j :| j > 0 && Running(prim, g, c, j) == c';
    } else {
      j :| Running(prim, g, c, j) == c';
    }
  }

  lemma {:induction false} StepsFrom(prim: Primitives, fn: Fn, st: State, n: nat)
    ensures Steps(prim, fn, st, n + 1) == Steps(prim, fn, Step(prim, fn, st), n)
  {
    hide Step;
    if n > 0 { StepsFrom(prim, fn, st, n - 1); }
  }

  /** The blocks never get stuck. */
  lemma NeverStuck(prim: Primitives, fn: Fn, env: map<nat, int>, w: World, m: nat)
    requires CheckedFn(fn)
    ensures !Running(prim, LowerFn(fn).blocks, BeginBlocks(env, w), m).Stuck?
  {
    hide LowerFn, Step;
    BeginMatches(fn, env, w);
    var n, m1 := KeepsPace(prim, fn, Begin(fn, w), BeginBlocks(env, w), m);
    var g := LowerFn(fn).blocks;
    RunningAdds(prim, g, BeginBlocks(env, w), m, m1 - m);
    if Running(prim, g, BeginBlocks(env, w), m).Stuck? { EndedStays(prim, g, Running(prim, g, BeginBlocks(env, w), m), m1 - m); }
  }

  /** A result of the blocks is the result of the statements: lowering neither
      adds nor removes non-termination. */
  lemma ResultBack(prim: Primitives, fn: Fn, env: map<nat, int>, w: World, m: nat)
    requires CheckedFn(fn) && Running(prim, LowerFn(fn).blocks, BeginBlocks(env, w), m).Returned?
    ensures var c := Running(prim, LowerFn(fn).blocks, BeginBlocks(env, w), m);
            exists n: nat :: Steps(prim, fn, Begin(fn, w), n) == Finished(c.result, c.w)
  {
    hide LowerFn, Step, Matches, Steps, Running;
    BeginMatches(fn, env, w);
    var g := LowerFn(fn).blocks;
    var n, m1 := KeepsPace(prim, fn, Begin(fn, w), BeginBlocks(env, w), m);
    RunningAdds(prim, g, BeginBlocks(env, w), m, m1 - m);
    EndedStays(prim, g, Running(prim, g, BeginBlocks(env, w), m), m1 - m);
    MatchedResult(fn, Steps(prim, fn, Begin(fn, w), n), Running(prim, g, BeginBlocks(env, w), m1));
  }

  lemma MatchedResult(fn: Fn, st: State, c: Conf)
    requires Matches(fn, st, c) && c.Returned?
    ensures st == Finished(c.result, c.w)
  { }

  // ---------------------------------------------------------- effect traces

  lemma {:induction false} TraceGrows(prim: Primitives, g: seq<Code>, c: Conf, n: nat)
    requires !c.Stuck? && !Running(prim, g, c, n).Stuck?
    ensures c.w.trace <= Running(prim, g, c, n).w.trace
    decreases n
  {
    if n > 0 {
      if Next(prim, g, c).Stuck? { EndedStays(prim, g, Stuck, n - 1); }
      TraceGrows(prim, g, Next(prim, g, c), n - 1);
    }
  }

  /** Also of runs that never end: whatever the statements have done, with all
      their effects in order, the blocks do. */
  lemma EffectsKept(prim: Primitives, fn: Fn, env: map<nat, int>, w: World, n: nat)
    requires CheckedFn(fn)
    ensures exists m: nat :: HasWorld(Running(prim, LowerFn(fn).blocks, BeginBlocks(env, w), m),
                                      Steps(prim, fn, Begin(fn, w), n).w)
  {
    hide LowerFn, Step;
    var c := BlocksFollow(prim, fn, env, w, n);
    var m: nat :| Running(prim, LowerFn(fn).blocks, BeginBlocks(env, w), m) == c;
    MatchedWorld(fn, Steps(prim, fn, Begin(fn, w), n), c);
  }

  lemma MatchedWorld(fn: Fn, st: State, c: Conf)
    requires Matches(fn, st, c)
    ensures HasWorld(c, st.w)
  { }

  /** And the blocks add none: their effects at any time are the first effects
      of the statements at some time. */
  lemma EffectsAdded(prim: Primitives, fn: Fn, env: map<nat, int>, w: World, m: nat)
    requires CheckedFn(fn)
    ensures exists n: nat :: TraceWithin(Running(prim, LowerFn(fn).blocks, BeginBlocks(env, w), m),
                                         Steps(prim, fn, Begin(fn, w), n).w)
  {
    hide LowerFn, Step, Matches, Steps, Running;
    var g := LowerFn(fn).blocks;
    var c0 := BeginBlocks(env, w);
    BeginMatches(fn, env, w);
    var n, m1 := KeepsPace(prim, fn, Begin(fn, w), c0, m);
    NeverStuck(prim, fn, env, w, m);
    NeverStuck(prim, fn, env, w, m1);
    RunningAdds(prim, g, c0, m, m1 - m);
    TraceGrows(prim, g, Running(prim, g, c0, m), m1 - m);
    MatchedWorld(fn, Steps(prim, fn, Begin(fn, w), n), Running(prim, g, c0, m1));
    assert TraceWithin(Running(prim, g, c0, m), Steps(prim, fn, Begin(fn, w), n).w);
  }

  predicate HasWorld(c: Conf, w: World) {
    !c.Stuck? && c.w == w
  }

  predicate TraceWithin(c: Conf, w: World) {
    !c.Stuck? && c.w.trace <= w.trace
  }
}
