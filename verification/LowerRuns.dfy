/** Running lowered expressions evaluates them: same value, same effects in the
    same order. */
module LowerRuns {
  import opened Wrappers
  import opened Structured
  import opened BlockGraph
  import opened Lower
  import opened LowerShape
  import opened LowerExprs

  // ------------------------------------------------------------ running on

  ghost predicate Reach(prim: Primitives, g: seq<Code>, c: Conf, c': Conf) {
    exists n: nat :: Running(prim, g, c, n) == c'
  }

  /** The same, in at least one step. */
  ghost predicate Advance(prim: Primitives, g: seq<Code>, c: Conf, c': Conf) {
    exists n: nat :: n > 0 && Running(prim, g, c, n) == c'
  }

  lemma ReachSelf(prim: Primitives, g: seq<Code>, c: Conf)
    ensures Reach(prim, g, c, c)
  {
    assert Running(prim, g, c, 0) == c;
  }

  lemma OneStep(prim: Primitives, g: seq<Code>, c: Conf)
    ensures Advance(prim, g, c, Next(prim, g, c)) && Reach(prim, g, c, Next(prim, g, c))
  {
    assert Running(prim, g, c, 1) == Running(prim, g, Next(prim, g, c), 0);
  }

  lemma ReachTrans(prim: Primitives, g: seq<Code>, c: Conf, c1: Conf, c2: Conf)
    requires Reach(prim, g, c, c1) && Reach(prim, g, c1, c2)
    ensures Reach(prim, g, c, c2)
    ensures Advance(prim, g, c, c1) || Advance(prim, g, c1, c2) ==> Advance(prim, g, c, c2)
  {
    var m: nat, n: nat :| Running(prim, g, c, m) == c1 && Running(prim, g, c1, n) == c2;
    RunningAdds(prim, g, c, m, n);
    if Advance(prim, g, c, c1) {
      var k: nat :| k > 0 && Running(prim, g, c, k) == c1;
      RunningAdds(prim, g, c, k, n);
    }
    if Advance(prim, g, c1, c2) {
      var k: nat :| k > 0 && Running(prim, g, c1, k) == c2;
      RunningAdds(prim, g, c, m, k);
    }
  }

  /** The point the builder is filling. */
  function Here(b: Builder, env: map<nat, int>, w: World): Conf {
    At(b.cur, if b.cur < |b.blocks| then |b.blocks[b.cur].items| else 0, env, w)
  }

  /** Values below `n` are unchanged. */
  ghost predicate Agree(env: map<nat, int>, env': map<nat, int>, n: nat) {
    forall v: nat :: v < n && v in env ==> v in env' && env'[v] == env[v]
  }

  lemma StillGet(env: map<nat, int>, env': map<nat, int>, n: nat, r: Ref)
    requires Agree(env, env', n) && RefOk(r, n) && Get(env, r).Some?
    ensures Get(env', r) == Get(env, r)
  { }

  lemma ItemHere(g: Builder, b: Builder, item: Item)
    requires b.cur < |b.blocks| && Grows(Emit(b, item), g)
    ensures b.cur < |g.blocks| && |b.blocks[b.cur].items| < |g.blocks[b.cur].items|
    ensures g.blocks[b.cur].items[|b.blocks[b.cur].items|] == item
  {
    var b1 := Emit(b, item);
    assert CodeGrows(b1.blocks[b.cur], g.blocks[b.cur]);
    assert b1.blocks[b.cur].items[|b.blocks[b.cur].items|] == item;
  }

  /** An instruction in the current block runs to the next point. */
  lemma InstRuns(prim: Primitives, g: Builder, b: Builder, item: Item, env: map<nat, int>, w: World,
                 env': map<nat, int>, w': World)
    requires b.cur < |b.blocks| && Grows(Emit(b.(next := b.next + 1), item), g)
    requires forall block: nat, pos: nat, codes: seq<Code> ::
               block < |codes| && pos < |codes[block].items| && codes[block].items[pos] == item ==>
                 Next(prim, codes, At(block, pos, env, w)) == At(block, pos + 1, env', w')
    ensures Reach(prim, g.blocks, Here(b, env, w), Here(Emit(b.(next := b.next + 1), item), env', w'))
  {
    ItemHere(g, b.(next := b.next + 1), item);
    OneStep(prim, g.blocks, Here(b, env, w));
  }

  /** A branch at the current point. */
  lemma BranchRuns(prim: Primitives, g: Builder, b: Builder, target: nat, args: seq<Ref>, env: map<nat, int>, w: World)
    requires b.cur < |b.blocks| && Grows(Emit(b, Br(target, args)), g)
    ensures Reach(prim, g.blocks, Here(b, env, w), Enter(g.blocks, target, args, env, w))
    ensures Advance(prim, g.blocks, Here(b, env, w), Enter(g.blocks, target, args, env, w))
  {
    ItemHere(g, b, Br(target, args));
    OneStep(prim, g.blocks, Here(b, env, w));
  }

  lemma CondRuns(prim: Primitives, g: Builder, b: Builder, item: Item, env: map<nat, int>, w: World, x: int)
    requires b.cur < |b.blocks| && item.CondBr? && Grows(Emit(b, item), g) && Get(env, item.cond) == Some(x)
    ensures var c := if x != 0 then Enter(g.blocks, item.ifTrue, item.trueArgs, env, w)
                     else Enter(g.blocks, item.ifFalse, item.falseArgs, env, w);
            Reach(prim, g.blocks, Here(b, env, w), c) && Advance(prim, g.blocks, Here(b, env, w), c)
  {
    ItemHere(g, b, item);
    OneStep(prim, g.blocks, Here(b, env, w));
  }

  /** Block `bb` has no parameters. */
  predicate Plain(b: Builder, bb: nat) {
    bb < |b.blocks| && b.blocks[bb].params == []
  }

  lemma PlainKept(b: Builder, b1: Builder, bb: nat)
    requires Plain(b, bb) && Grows(b, b1)
    ensures Plain(b1, bb)
  {
    assert CodeGrows(b.blocks[bb], b1.blocks[bb]);
  }

  lemma EnterPlain(g: Builder, bb: nat, env: map<nat, int>, w: World)
    requires Plain(g, bb)
    ensures Enter(g.blocks, bb, [], env, w) == At(bb, 0, env, w)
  { }

  lemma EnterJoin(g: Builder, bb: nat, p: nat, r: Ref, x: int, env: map<nat, int>, w: World)
    requires JoinIs(g, bb, p) && Get(env, r) == Some(x)
    ensures Enter(g.blocks, bb, [r], env, w) == At(bb, 0, env[p := x], w)
  {
    assert [r][1..] == [] && GetAll(env, [r][1..]) == Some([]);
    assert [x] + [] == [x];
    assert GetAll(env, [r]) == Some([x]);
    assert Bind(env, [p], [x]) == env[p := x];
  }

  /** A block about to be begun is empty, so filling starts at its beginning. */
  lemma BeginHere(b: Builder, b1: Builder, extra: set<nat>, term: Item, bb: nat, env: map<nat, int>, w: World)
    requires BuilderOk(b) && Ahead(b, b1, extra) && bb in extra && term.Ends()
    ensures Here(EndWith(b1, term, bb), env, w) == At(bb, 0, env, w)
  {
    assert PlainStep(b, b1, {}, extra, bb);
  }

  // ---------------------------------------------------------- expressions

  lemma {:induction false} ExprRuns(prim: Primitives, g: Builder, e: Expr, b: Builder, env: map<nat, int>, w: World)
    returns (env': map<nat, int>)
    requires BuilderOk(b) && !b.terminated && Grows(LowerExpr(e, b).1, g)
    ensures var (r, b') := LowerExpr(e, b); var (x, w') := Eval(prim, e, w);
            && Reach(prim, g.blocks, Here(b, env, w), Here(b', env', w'))
            && Get(env', r) == Some(x) && Agree(env, env', b.next)
    decreases e, 1
  {
    hide BuilderOk, Ahead, Grows, Reach, Emit, EndWith, Here, LowerLogical, Agree;
    match e
    case Const(n) =>
      env' := env;
      ReachSelf(prim, g.blocks, Here(b, env, w));
      AgreeSelf(env, b.next);
    case Op(op, args) =>
      ArgsShape(args, b);
      var (rs, b1) := LowerArgs(args, b);
      var item := Prim(b1.next, op, rs);
      StillOk(b, b1, {});
      CurInRange(b1);
      InstGrows(b1, item, g);
      var env1 := ArgsRun(prim, g, args, b, env, w);
      var (vs, w1) := EvalArgs(prim, args, w);
      var (x, w2) := Perform(prim, op, vs, w1);
      env' := env1[b1.next := x];
      InstRuns(prim, g, b1, item, env1, w1, env', w2);
      ReachTrans(prim, g.blocks, Here(b, env, w), Here(b1, env1, w1), Here(LowerExpr(e, b).1, env', w2));
      AgreeNew(env, env1, b.next, b1.next, x);
    case And(l, r) => env' := LogicalRuns(prim, g, e, l, r, true, b, env, w);
    case Or(l, r) => env' := LogicalRuns(prim, g, e, l, r, false, b, env, w);
    case Ternary(c, t, f) => env' := TernaryRuns(prim, g, e, c, t, f, b, env, w);
    case Comma(first, second) =>
      EffectShape(first, b);
      var b1 := LowerEffect(first, b);
      StillOk(b, b1, {});
      ExprShape(second, b1);
      AheadGrows(b1, LowerExpr(second, b1).1, {});
      GrowsTrans(b1, LowerExpr(second, b1).1, g);
      var env1 := EffectRuns(prim, g, first, b, env, w);
      var w1 := Eval(prim, first, w).1;
      env' := ExprRuns(prim, g, second, b1, env1, w1);
      ReachTrans(prim, g.blocks, Here(b, env, w), Here(b1, env1, w1), Here(LowerExpr(e, b).1, env', Eval(prim, e, w).1));
      AgreeTrans(env, env1, env', b.next, b1.next);
  }

  lemma AgreeSelf(env: map<nat, int>, n: nat)
    ensures Agree(env, env, n)
  { }

  lemma AgreeTrans(env: map<nat, int>, env1: map<nat, int>, env2: map<nat, int>, n: nat, n1: nat)
    requires Agree(env, env1, n) && Agree(env1, env2, n1) && n <= n1
    ensures Agree(env, env2, n)
  { }

  lemma AgreeNew(env: map<nat, int>, env1: map<nat, int>, n: nat, v: nat, x: int)
    requires Agree(env, env1, n) && n <= v
    ensures Agree(env, env1[v := x], n)
  { }

  lemma InstGrows(b: Builder, item: Item, g: Builder)
    requires Grows(Emit(b.(next := b.next + 1), item), g)
    ensures Grows(b, g)
  {
    GrowsTrans(b, Emit(b.(next := b.next + 1), item), g);
  }

  lemma {:induction false} ArgsRun(prim: Primitives, g: Builder, es: Exprs, b: Builder, env: map<nat, int>, w: World)
    returns (env': map<nat, int>)
    requires BuilderOk(b) && !b.terminated && Grows(LowerArgs(es, b).1, g)
    ensures var (rs, b') := LowerArgs(es, b); var (vs, w') := EvalArgs(prim, es, w);
            && Reach(prim, g.blocks, Here(b, env, w), Here(b', env', w'))
            && GetAll(env', rs) == Some(vs) && Agree(env, env', b.next)
    decreases es, 1
  {
    hide BuilderOk, Ahead, Grows, Reach, Here, Agree;
    match es
    case NoExprs =>
      env' := env;
      ReachSelf(prim, g.blocks, Here(b, env, w));
      AgreeSelf(env, b.next);
    case MoreExprs(e, rest) =>
      ExprShape(e, b);
      var (r, b1) := LowerExpr(e, b);
      StillOk(b, b1, {});
      ArgsShape(rest, b1);
      var (rs, b2) := LowerArgs(rest, b1);
      AheadGrows(b1, b2, {});
      GrowsTrans(b1, b2, g);
      var env1 := ExprRuns(prim, g, e, b, env, w);
      var (x, w1) := Eval(prim, e, w);
      env' := ArgsRun(prim, g, rest, b1, env1, w1);
      ReachTrans(prim, g.blocks, Here(b, env, w), Here(b1, env1, w1), Here(b2, env', EvalArgs(prim, rest, w1).1));
      AgreeTrans(env, env1, env', b.next, b1.next);
      StillGet(env1, env', b1.next, r);
      assert ([r] + rs)[1..] == rs;
  }

  lemma {:induction false} TruthRuns(prim: Primitives, g: Builder, e: Expr, b: Builder, env: map<nat, int>, w: World)
    returns (env': map<nat, int>)
    requires BuilderOk(b) && !b.terminated && Grows(LowerTruth(e, b).1, g)
    ensures var (r, b') := LowerTruth(e, b); var (x, w') := Eval(prim, e, w);
            && Reach(prim, g.blocks, Here(b, env, w), Here(b', env', w'))
            && Get(env', r) == Some(Truth(x)) && Agree(env, env', b.next)
    decreases e, 2
  {
    hide BuilderOk, Ahead, Grows, Reach, Emit, Here, Agree;
    ExprShape(e, b);
    var (v, b1) := LowerExpr(e, b);
    var item := NotZero(b1.next, v);
    StillOk(b, b1, {});
    CurInRange(b1);
    InstGrows(b1, item, g);
    var env1 := ExprRuns(prim, g, e, b, env, w);
    var (x, w1) := Eval(prim, e, w);
    env' := env1[b1.next := Truth(x)];
    InstRuns(prim, g, b1, item, env1, w1, env', w1);
    ReachTrans(prim, g.blocks, Here(b, env, w), Here(b1, env1, w1), Here(LowerTruth(e, b).1, env', w1));
    AgreeNew(env, env1, b.next, b1.next, Truth(x));
  }

  /** `b2` is `b1` with fresh blocks, still filling the same one. */
  ghost predicate WithBlocks(b1: Builder, b2: Builder) {
    && b2.cur == b1.cur < |b1.blocks| <= |b2.blocks| && b2.blocks[..|b1.blocks|] == b1.blocks
    && b1.next <= b2.next && b2.labels == b1.labels
  }

  lemma WithBlocksHere(b1: Builder, b2: Builder, env: map<nat, int>, w: World)
    requires WithBlocks(b1, b2)
    ensures Here(b1, env, w) == Here(b2, env, w) && Grows(b1, b2)
  {
    assert forall i: nat :: i < |b1.blocks| ==> b2.blocks[i] == b2.blocks[..|b1.blocks|][i];
  }

  /** A condition, then a branch on it. */
  lemma {:induction false} TestRuns(prim: Primitives, g: Builder, c: Expr, b: Builder, b2: Builder, term: Item,
                                    env: map<nat, int>, w: World)
    returns (env': map<nat, int>)
    requires BuilderOk(b) && !b.terminated
    requires WithBlocks(LowerTruth(c, b).1, b2) && term.CondBr? && term.cond == LowerTruth(c, b).0
    requires Grows(Emit(b2, term), g)
    ensures var (x, w') := Eval(prim, c, w);
            var next := if x != 0 then Enter(g.blocks, term.ifTrue, term.trueArgs, env', w')
                        else Enter(g.blocks, term.ifFalse, term.falseArgs, env', w');
            && Reach(prim, g.blocks, Here(b, env, w), next) && Advance(prim, g.blocks, Here(b, env, w), next)
            && Agree(env, env', b.next)
    decreases c, 3
  {
    hide BuilderOk, Grows, Reach, Advance, Emit, Here, Agree, Enter;
    var (cv, b1) := LowerTruth(c, b);
    EmitGrows(b2, term, 0);
    GrowsTrans(b2, Emit(b2, term), g);
    WithBlocksHere(b1, b2, env, w);
    GrowsTrans(b1, b2, g);
    env' := TruthRuns(prim, g, c, b, env, w);
    var (x, w1) := Eval(prim, c, w);
    WithBlocksHere(b1, b2, env', w1);
    CondRuns(prim, g, b2, term, env', w1, Truth(x));
    var next := if x != 0 then Enter(g.blocks, term.ifTrue, term.trueArgs, env', w1)
                else Enter(g.blocks, term.ifFalse, term.falseArgs, env', w1);
    ReachTrans(prim, g.blocks, Here(b, env, w), Here(b1, env', w1), next);
  }

  lemma {:induction false} ForkTernaryRuns(prim: Primitives, g: Builder, e: Expr, c: Expr, b: Builder,
                                           env: map<nat, int>, w: World)
    returns (env': map<nat, int>)
    requires BuilderOk(b) && !b.terminated && c < e && Grows(ForkTernary(e, c, b).0, g)
    ensures var (b1, n) := ForkTernary(e, c, b); var (x, w') := Eval(prim, c, w);
            && Reach(prim, g.blocks, Here(b, env, w), At(if x != 0 then n else n + 1, 0, env', w'))
            && Agree(env, env', b.next)
    decreases c, 4
  {
    hide BuilderOk, Ahead, Grows, Reach, Advance, Here, Agree, Enter;
    TruthShape(c, b);
    var (cv, b1) := LowerTruth(c, b);
    StillOk(b, b1, {});
    CurInRange(b1);
    var n := |b1.blocks|;
    var b2 := NewJoin(NewBlocks(b1, 2));
    var term := CondBr(cv, n, [], n + 1, []);
    assert Grows(Emit(b2, term), g) by { SwitchGrows(Emit(b2, term), n, g); }
    env' := TestRuns(prim, g, c, b, b2, term, env, w);
    var w1 := Eval(prim, c, w).1;
    EmitGrows(b2, term, n);
    GrowsTrans(b2, EndWith(b2, term, n), g);
    PlainKept(b2, g, n);
    PlainKept(b2, g, n + 1);
    EnterPlain(g, n, env', w1);
    EnterPlain(g, n + 1, env', w1);
  }

  lemma SwitchGrows(b: Builder, bb: nat, g: Builder)
    requires Grows(SwitchTo(b, bb), g)
    ensures Grows(b, g)
  { }

  /** Branch with one argument to a join, where filling goes on. */
  lemma JoinRuns(prim: Primitives, g: Builder, b: Builder, b1: Builder, extra: set<nat>, bb: nat, p: nat, r: Ref, x: int,
                 env: map<nat, int>, w: World)
    requires BuilderOk(b) && Ahead(b, b1, extra) && bb in extra
    requires Grows(Emit(b1, Br(bb, [r])), g) && JoinIs(g, bb, p) && Get(env, r) == Some(x)
    ensures Reach(prim, g.blocks, Here(b1, env, w), Here(EndWith(b1, Br(bb, [r]), bb), env[p := x], w))
  {
    hide BuilderOk, Grows, Reach, Advance, JoinIs;
    CurInRange(b1);
    BranchRuns(prim, g, b1, bb, [r], env, w);
    EnterJoin(g, bb, p, r, x, env, w);
    BeginHere(b, b1, extra, Br(bb, [r]), bb, env[p := x], w);
  }

  lemma {:induction false} TernaryRuns(prim: Primitives, g: Builder, e: Expr, c: Expr, t: Expr, f: Expr, b: Builder,
                                       env: map<nat, int>, w: World)
    returns (env': map<nat, int>)
    requires BuilderOk(b) && !b.terminated && e == Ternary(c, t, f) && Grows(LowerExpr(e, b).1, g)
    ensures var (r, b') := LowerExpr(e, b); var (x, w') := Eval(prim, e, w);
            && Reach(prim, g.blocks, Here(b, env, w), Here(b', env', w'))
            && Get(env', r) == Some(x) && Agree(env, env', b.next)
    decreases e, 0
  {
    hide BuilderOk, Ahead, Grows, Reach, Here, Agree, ForkTernary, JoinIs, Emit, LowerTruth, LowerExpr, Eval;
    TernaryIs(prim, e, c, t, f, b, w);
    TernaryShape(e, c, t, f, b);
    TernaryStages(e, c, t, f, b);
    var (b1, n) := ForkTernary(e, c, b);
    var (tv, b2) := LowerExpr(t, b1);
    var b3 := EndWith(b2, Br(n + 2, [tv]), n + 1);
    var (fv, b4) := LowerExpr(f, b3);
    var b5 := EndWith(b4, Br(n + 2, [fv]), n + 2);
    var p := b1.next - 1;
    assert LowerExpr(e, b) == (Reg(JoinValue(b4, n + 2)), b5);
    GrowsTrans(b4, b5, g);
    GrowsTrans(b3, b4, g);
    GrowsTrans(b2, b3, g);
    GrowsTrans(b1, b2, g);
    JoinKept(b5, g, n + 2, p);
    var (x, w1) := Eval(prim, c, w);
    var env1 := ForkTernaryRuns(prim, g, e, c, b, env, w);
    if x != 0 {
      BeginFirst(e, c, b, env1, w1);
      var env2 := ExprRuns(prim, g, t, b1, env1, w1);
      var (y, w2) := Eval(prim, t, w1);
      env' := env2[p := y];
      SwitchGrows(Emit(b2, Br(n + 2, [tv])), n + 1, g);
      JoinRuns(prim, g, b, b2, {n + 1, n + 2}, n + 2, p, tv, y, env2, w2);
      SameJoin(b, b2, b4, n + 2, {n + 1, n + 2}, {n + 2}, Br(n + 2, [tv]), Br(n + 2, [fv]), env', w2);
      ReachTrans(prim, g.blocks, Here(b, env, w), Here(b1, env1, w1), Here(b2, env2, w2));
      ReachTrans(prim, g.blocks, Here(b, env, w), Here(b2, env2, w2), Here(b5, env', w2));
      AgreeTrans(env, env1, env2, b.next, b1.next);
      AgreeNew(env, env2, b.next, p, y);
    } else {
      BeginHere(b, b2, {n + 1, n + 2}, Br(n + 2, [tv]), n + 1, env1, w1);
      var env2 := ExprRuns(prim, g, f, b3, env1, w1);
      var (y, w2) := Eval(prim, f, w1);
      env' := env2[p := y];
      SwitchGrows(Emit(b4, Br(n + 2, [fv])), n + 2, g);
      JoinRuns(prim, g, b, b4, {n + 2}, n + 2, p, fv, y, env2, w2);
      ReachTrans(prim, g.blocks, Here(b, env, w), Here(b3, env1, w1), Here(b4, env2, w2));
      ReachTrans(prim, g.blocks, Here(b, env, w), Here(b4, env2, w2), Here(b5, env', w2));
      AgreeTrans(env, env1, env2, b.next, b3.next);
      AgreeNew(env, env2, b.next, p, y);
    }
  }

  lemma TernaryIs(prim: Primitives, e: Expr, c: Expr, t: Expr, f: Expr, b: Builder, w: World)
    requires e == Ternary(c, t, f)
    ensures var (b1, n) := ForkTernary(e, c, b);
            var (tv, b2) := LowerExpr(t, b1);
            var (fv, b4) := LowerExpr(f, EndWith(b2, Br(n + 2, [tv]), n + 1));
            LowerExpr(e, b) == (Reg(JoinValue(b4, n + 2)), EndWith(b4, Br(n + 2, [fv]), n + 2))
    ensures var (x, w1) := Eval(prim, c, w); Eval(prim, e, w) == if x != 0 then Eval(prim, t, w1) else Eval(prim, f, w1)
  {
    hide ForkTernary, EndWith, JoinValue;
  }

  lemma SameJoin(b: Builder, b2: Builder, b4: Builder, bb: nat, extra2: set<nat>, extra4: set<nat>, term2: Item, term4: Item,
                 env: map<nat, int>, w: World)
    requires BuilderOk(b) && Ahead(b, b2, extra2) && Ahead(b, b4, extra4) && bb in extra2 && bb in extra4
    requires term2.Ends() && term4.Ends()
    ensures Here(EndWith(b2, term2, bb), env, w) == Here(EndWith(b4, term4, bb), env, w)
  {
    BeginHere(b, b2, extra2, term2, bb, env, w);
    BeginHere(b, b4, extra4, term4, bb, env, w);
  }

  lemma BeginFirst(e: Expr, c: Expr, b: Builder, env: map<nat, int>, w: World)
    requires BuilderOk(b) && !b.terminated && c < e
    ensures var (b1, n) := ForkTernary(e, c, b); Here(b1, env, w) == At(n, 0, env, w)
  {
    TruthShape(c, b);
    CurInRange(LowerTruth(c, b).1);
  }

  /** The builders before the first arm, after it, before the second, after it and at
      the join. */
  ghost predicate Staged(b: Builder, b1: Builder, b2: Builder, b3: Builder, b4: Builder, b5: Builder, n: nat) {
    && BuilderOk(b1) && !b1.terminated && BuilderOk(b3) && !b3.terminated
    && Grows(b1, b2) && Grows(b2, b3) && Grows(b3, b4) && Grows(b4, b5)
    && Ahead(b, b2, {n + 1, n + 2}) && Ahead(b, b4, {n + 2})
    && b.next < b1.next && b.next <= b3.next && JoinValue(b4, n + 2) == b1.next - 1
    && JoinIs(b5, n + 2, b1.next - 1)
  }

  /** How the stages of a conditional follow on one another. */
  lemma TernaryStages(e: Expr, c: Expr, t: Expr, f: Expr, b: Builder)
    requires BuilderOk(b) && !b.terminated && e == Ternary(c, t, f)
    ensures var (b1, n) := ForkTernary(e, c, b);
            var (tv, b2) := LowerExpr(t, b1);
            var b3 := EndWith(b2, Br(n + 2, [tv]), n + 1);
            var (fv, b4) := LowerExpr(f, b3);
            Staged(b, b1, b2, b3, b4, EndWith(b4, Br(n + 2, [fv]), n + 2), n)
  {
    hide BuilderOk, Ahead, Grows, ForkTernary, JoinIs, Emit, LowerTruth, EndWith;
    ForkTernaryShape(e, c, b);
    var (b1, n) := ForkTernary(e, c, b);
    StillOk(b, b1, {n + 1, n + 2});
    ExprShape(t, b1);
    var (tv, b2) := LowerExpr(t, b1);
    AheadTrans(b, b1, b2, {n + 1, n + 2});
    AheadEnd(b, b2, {n + 1, n + 2}, Br(n + 2, [tv]), n + 1);
    assert {n + 1, n + 2} - {n + 1} == {n + 2};
    var b3 := EndWith(b2, Br(n + 2, [tv]), n + 1);
    StillOk(b, b3, {n + 2});
    ExprShape(f, b3);
    var (fv, b4) := LowerExpr(f, b3);
    AheadTrans(b, b3, b4, {n + 2});
    TruthShape(c, b);
    AheadGrows(b, LowerTruth(c, b).1, {});
    StillOk(b, LowerTruth(c, b).1, {});
    CurInRange(LowerTruth(c, b).1);
    AheadGrows(b1, b2, {});
    AheadGrows(b3, b4, {});
    EmitGrows(b2, Br(n + 2, [tv]), n + 1);
    EmitGrows(b4, Br(n + 2, [fv]), n + 2);
    TernaryJoin(e, c, t, f, b);
  }

  // ------------------------------------------------- short circuits

  /** Which side of the fork decides: with `&&` a zero on the left settles it,
      with `||` a nonzero. */
  predicate Settles(isAnd: bool, x: int) {
    (x == 0) == isAnd
  }

  lemma {:induction false} ForkLogicalRuns(prim: Primitives, g: Builder, e: Expr, l: Expr, isAnd: bool, b: Builder,
                                           env: map<nat, int>, w: World)
    returns (env': map<nat, int>)
    requires BuilderOk(b) && !b.terminated && l < e && Grows(ForkLogical(e, l, isAnd, b).0, g)
    requires var (b1, n) := ForkLogical(e, l, isAnd, b); JoinIs(g, n + 1, b1.next - 1)
    ensures var (b1, n) := ForkLogical(e, l, isAnd, b); var (x, w') := Eval(prim, l, w);
            && Agree(env, env', b.next)
            && Reach(prim, g.blocks, Here(b, env, w),
                     if Settles(isAnd, x) then At(n + 1, 0, env'[b1.next - 1 := Truth(x)], w') else At(n, 0, env', w'))
    decreases l, 4
  {
    hide BuilderOk, Ahead, Grows, Reach, Advance, Here, Agree, Enter, JoinIs, LowerTruth, Eval, Plain;
    TruthShape(l, b);
    var (lv, b1) := LowerTruth(l, b);
    StillOk(b, b1, {});
    CurInRange(b1);
    var n := |b1.blocks|;
    var b2 := NewJoin(NewBlock(b1));
    var term := if isAnd then CondBr(lv, n, [], n + 1, [Lit(0)]) else CondBr(lv, n + 1, [Lit(1)], n, []);
    SwitchGrows(Emit(b2, term), n, g);
    env' := TestRuns(prim, g, l, b, b2, term, env, w);
    var (x, w1) := Eval(prim, l, w);
    EmitGrows(b2, term, n);
    GrowsTrans(b2, EndWith(b2, term, n), g);
    PlainKept(b2, g, n);
    EnterPlain(g, n, env', w1);
    EnterJoin(g, n + 1, b1.next, Lit(if isAnd then 0 else 1), if isAnd then 0 else 1, env', w1);
  }

  lemma ForkLogicalJoin(e: Expr, l: Expr, isAnd: bool, b: Builder)
    requires l < e && Grows(b, LowerTruth(l, b).1) && LowerTruth(l, b).1.cur < |LowerTruth(l, b).1.blocks|
    ensures var (b1, n) := ForkLogical(e, l, isAnd, b);
            JoinIs(b1, n + 1, b1.next - 1) && b1.next - 1 >= b.next && b1.cur == n
    ensures var (b1, n) := ForkLogical(e, l, isAnd, b); forall env, w :: Here(b1, env, w) == At(n, 0, env, w)
  { }

  /** How the stages of a short circuit follow on one another. */
  lemma {:induction false} LogicalStages(e: Expr, l: Expr, r: Expr, isAnd: bool, b: Builder)
    requires BuilderOk(b) && !b.terminated && l < e && r < e
    ensures var (b1, n) := ForkLogical(e, l, isAnd, b);
            var (rv, b2) := LowerTruth(r, b1);
            var b3 := EndWith(b2, Br(n + 1, [rv]), n + 1);
            && BuilderOk(b1) && !b1.terminated && Grows(b1, b2) && Grows(b2, b3) && b3.cur < |b3.blocks|
            && Ahead(b, b2, {n + 1}) && b.next <= b1.next - 1 && b1.next <= b2.next && b.next <= b3.next
            && JoinIs(b3, n + 1, b1.next - 1) && JoinValue(b3, n + 1) == b1.next - 1
  {
    hide BuilderOk, Ahead, Grows, ForkLogical, JoinIs, LowerTruth, EndWith;
    ForkLogicalShape(e, l, isAnd, b);
    var (b1, n) := ForkLogical(e, l, isAnd, b);
    StillOk(b, b1, {n + 1});
    TruthShape(r, b1);
    var (rv, b2) := LowerTruth(r, b1);
    AheadTrans(b, b1, b2, {n + 1});
    StillOk(b1, b2, {});
    AheadEnd(b, b2, {n + 1}, Br(n + 1, [rv]), n + 1);
    var b3 := EndWith(b2, Br(n + 1, [rv]), n + 1);
    StillOk(b, b3, {n + 1} - {n + 1});
    CurInRange(b3);
    TruthShape(l, b);
    AheadGrows(b, LowerTruth(l, b).1, {});
    StillOk(b, LowerTruth(l, b).1, {});
    CurInRange(LowerTruth(l, b).1);
    ForkLogicalJoin(e, l, isAnd, b);
    AheadGrows(b1, b2, {});
    EmitGrows(b2, Br(n + 1, [rv]), n + 1);
    JoinKept(b1, b2, n + 1, b1.next - 1);
    JoinKept(b2, b3, n + 1, b1.next - 1);
    JoinValueIs(b3, n + 1, b1.next - 1);
  }

  lemma {:induction false} LogicalRuns(prim: Primitives, g: Builder, e: Expr, l: Expr, r: Expr, isAnd: bool, b: Builder,
                                       env: map<nat, int>, w: World)
    returns (env': map<nat, int>)
    requires BuilderOk(b) && !b.terminated && e == (if isAnd then And(l, r) else Or(l, r))
    requires Grows(LowerLogical(e, l, r, isAnd, b).1, g)
    ensures var (v, b') := LowerLogical(e, l, r, isAnd, b); var (x, w') := Eval(prim, e, w);
            && Reach(prim, g.blocks, Here(b, env, w), Here(b', env', w'))
            && Get(env', v) == Some(x) && Agree(env, env', b.next)
    decreases e, 0
  {
    hide BuilderOk, Ahead, Grows, Reach, Advance, Here, Agree, ForkLogical, JoinIs, Emit, LowerTruth;
    LogicalStages(e, l, r, isAnd, b);
    var (b1, n) := ForkLogical(e, l, isAnd, b);
    var (rv, b2) := LowerTruth(r, b1);
    var b3 := EndWith(b2, Br(n + 1, [rv]), n + 1);
    var p := b1.next - 1;
    var item := Extend(b3.next, Reg(p));
    var b4 := Emit(b3.(next := b3.next + 1), item);
    InstGrows(b3, item, g);
    GrowsTrans(b2, b3, g);
    GrowsTrans(b1, b2, g);
    JoinKept(b3, g, n + 1, p);
    var (x, w1) := Eval(prim, l, w);
    var env1 := ForkLogicalRuns(prim, g, e, l, isAnd, b, env, w);
    var env2, y, w2;
    if Settles(isAnd, x) {
      env2, y, w2 := env1, Truth(x), w1;
      BeginHere(b, b2, {n + 1}, Br(n + 1, [rv]), n + 1, env2[p := y], w2);
    } else {
      LogicalFork(e, l, isAnd, b, env1, w1);
      env2 := TruthRuns(prim, g, r, b1, env1, w1);
      y, w2 := Truth(Eval(prim, r, w1).0), Eval(prim, r, w1).1;
      SwitchGrows(Emit(b2, Br(n + 1, [rv])), n + 1, g);
      JoinRuns(prim, g, b, b2, {n + 1}, n + 1, p, rv, y, env2, w2);
      ReachTrans(prim, g.blocks, Here(b, env, w), Here(b1, env1, w1), Here(b2, env2, w2));
      ReachTrans(prim, g.blocks, Here(b, env, w), Here(b2, env2, w2), Here(b3, env2[p := y], w2));
      AgreeTrans(env, env1, env2, b.next, b1.next);
    }
    env' := env2[p := y][b3.next := y];
    InstRuns(prim, g, b3, item, env2[p := y], w2, env', w2);
    ReachTrans(prim, g.blocks, Here(b, env, w), Here(b3, env2[p := y], w2), Here(b4, env', w2));
    assert Agree(env, env2, b.next) by { if Settles(isAnd, x) { } }
    AgreeNew(env, env2, b.next, p, y);
    AgreeNew(env, env2[p := y], b.next, b3.next, y);
  }

  lemma LogicalFork(e: Expr, l: Expr, isAnd: bool, b: Builder, env: map<nat, int>, w: World)
    requires BuilderOk(b) && !b.terminated && l < e
    ensures var (b1, n) := ForkLogical(e, l, isAnd, b); Here(b1, env, w) == At(n, 0, env, w)
  {
    TruthShape(l, b);
    ForkLogicalJoin(e, l, isAnd, b);
  }

  // --------------------------------------------------------------- effects

  lemma {:induction false} ForkEffectRuns(prim: Primitives, g: Builder, e: Expr, c: Expr, b: Builder,
                                          env: map<nat, int>, w: World)
    returns (env': map<nat, int>)
    requires BuilderOk(b) && !b.terminated && c < e && Grows(ForkEffect(e, c, b).0, g)
    ensures var (b1, n) := ForkEffect(e, c, b); var (x, w') := Eval(prim, c, w);
            && Reach(prim, g.blocks, Here(b, env, w), At(if x != 0 then n else n + 1, 0, env', w'))
            && Agree(env, env', b.next)
            && Plain(g, n + 2) && Here(b1, env', w') == At(n, 0, env', w')
    decreases c, 4
  {
    hide BuilderOk, Ahead, Grows, Reach, Advance, Agree, Enter;
    TruthShape(c, b);
    var (cv, b1) := LowerTruth(c, b);
    StillOk(b, b1, {});
    CurInRange(b1);
    var n := |b1.blocks|;
    var b2 := NewBlocks(b1, 3);
    var term := CondBr(cv, n, [], n + 1, []);
    SwitchGrows(Emit(b2, term), n, g);
    env' := TestRuns(prim, g, c, b, b2, term, env, w);
    var w1 := Eval(prim, c, w).1;
    EmitGrows(b2, term, n);
    GrowsTrans(b2, EndWith(b2, term, n), g);
    PlainKept(b2, g, n);
    PlainKept(b2, g, n + 1);
    PlainKept(b2, g, n + 2);
    EnterPlain(g, n, env', w1);
    EnterPlain(g, n + 1, env', w1);
  }

  /** Branch without arguments to a block where filling goes on. */
  lemma MeetRuns(prim: Primitives, g: Builder, b: Builder, b1: Builder, extra: set<nat>, bb: nat,
                 env: map<nat, int>, w: World)
    requires BuilderOk(b) && Ahead(b, b1, extra) && bb in extra
    requires Grows(Emit(b1, Br(bb, [])), g) && Plain(g, bb)
    ensures Reach(prim, g.blocks, Here(b1, env, w), Here(EndWith(b1, Br(bb, []), bb), env, w))
    ensures Advance(prim, g.blocks, Here(b1, env, w), Here(EndWith(b1, Br(bb, []), bb), env, w))
  {
    hide BuilderOk, Grows, Reach, Advance;
    CurInRange(b1);
    BranchRuns(prim, g, b1, bb, [], env, w);
    EnterPlain(g, bb, env, w);
    BeginHere(b, b1, extra, Br(bb, []), bb, env, w);
  }

  lemma {:induction false} EffectStages(e: Expr, c: Expr, t: Expr, f: Expr, b: Builder)
    requires BuilderOk(b) && !b.terminated && e == Ternary(c, t, f)
    ensures var (b1, n) := ForkEffect(e, c, b);
            var b2 := LowerEffect(t, b1);
            var b3 := EndWith(b2, Br(n + 2, []), n + 1);
            var b4 := LowerEffect(f, b3);
            && BuilderOk(b1) && !b1.terminated && BuilderOk(b3) && !b3.terminated
            && Grows(b1, b2) && Grows(b2, b3) && Grows(b3, b4)
            && Ahead(b, b2, {n + 1, n + 2}) && Ahead(b, b4, {n + 2})
            && b.next <= b1.next && b.next <= b3.next
  {
    hide BuilderOk, Ahead, Grows, ForkEffect, Emit, LowerTruth, EndWith;
    ForkEffectShape(e, c, b);
    var (b1, n) := ForkEffect(e, c, b);
    StillOk(b, b1, {n + 1, n + 2});
    EffectShape(t, b1);
    var b2 := LowerEffect(t, b1);
    AheadTrans(b, b1, b2, {n + 1, n + 2});
    AheadEnd(b, b2, {n + 1, n + 2}, Br(n + 2, []), n + 1);
    assert {n + 1, n + 2} - {n + 1} == {n + 2};
    var b3 := EndWith(b2, Br(n + 2, []), n + 1);
    StillOk(b, b3, {n + 2});
    EffectShape(f, b3);
    var b4 := LowerEffect(f, b3);
    AheadTrans(b, b3, b4, {n + 2});
    AheadGrows(b1, b2, {});
    AheadGrows(b3, b4, {});
    EmitGrows(b2, Br(n + 2, []), n + 1);
  }

  lemma {:induction false} EffectRuns(prim: Primitives, g: Builder, e: Expr, b: Builder, env: map<nat, int>, w: World)
    returns (env': map<nat, int>)
    requires BuilderOk(b) && !b.terminated && Grows(LowerEffect(e, b), g)
    ensures Reach(prim, g.blocks, Here(b, env, w), Here(LowerEffect(e, b), env', Eval(prim, e, w).1))
    ensures Agree(env, env', b.next)
    decreases e, 2
  {
    hide BuilderOk, Ahead, Grows, Reach, Here, Agree;
    match e
    case Comma(first, second) =>
      EffectShape(first, b);
      var b1 := LowerEffect(first, b);
      StillOk(b, b1, {});
      EffectShape(second, b1);
      var b2 := LowerEffect(second, b1);
      AheadGrows(b1, b2, {});
      GrowsTrans(b1, b2, g);
      var env1 := EffectRuns(prim, g, first, b, env, w);
      var w1 := Eval(prim, first, w).1;
      env' := EffectRuns(prim, g, second, b1, env1, w1);
      ReachTrans(prim, g.blocks, Here(b, env, w), Here(b1, env1, w1), Here(b2, env', Eval(prim, second, w1).1));
      AgreeTrans(env, env1, env', b.next, b1.next);
    case Ternary(c, t, f) => env' := ChoiceRuns(prim, g, e, c, t, f, b, env, w);
    case _ => env' := ExprRuns(prim, g, e, b, env, w);
  }

  /** A discarded conditional. */
  lemma {:induction false} ChoiceRuns(prim: Primitives, g: Builder, e: Expr, c: Expr, t: Expr, f: Expr, b: Builder,
                                      env: map<nat, int>, w: World)
    returns (env': map<nat, int>)
    requires BuilderOk(b) && !b.terminated && e == Ternary(c, t, f) && Grows(LowerEffect(e, b), g)
    ensures Reach(prim, g.blocks, Here(b, env, w), Here(LowerEffect(e, b), env', Eval(prim, e, w).1))
    ensures Agree(env, env', b.next)
    decreases e, 0
  {
    hide BuilderOk, Ahead, Grows, Reach, Here, Agree, ForkEffect, Emit, LowerTruth, Plain;
    EffectStages(e, c, t, f, b);
    var (b1, n) := ForkEffect(e, c, b);
    var b2 := LowerEffect(t, b1);
    var b3 := EndWith(b2, Br(n + 2, []), n + 1);
    var b4 := LowerEffect(f, b3);
    var b5 := EndWith(b4, Br(n + 2, []), n + 2);
    EmitGrows(b4, Br(n + 2, []), n + 2);
    GrowsTrans(b4, b5, g);
    GrowsTrans(b3, b4, g);
    GrowsTrans(b2, b3, g);
    GrowsTrans(b1, b2, g);
    var (x, w1) := Eval(prim, c, w);
    var env1 := ForkEffectRuns(prim, g, e, c, b, env, w);
    if x != 0 {
      env' := EffectRuns(prim, g, t, b1, env1, w1);
      var w2 := Eval(prim, t, w1).1;
      SwitchGrows(Emit(b2, Br(n + 2, [])), n + 1, g);
      MeetRuns(prim, g, b, b2, {n + 1, n + 2}, n + 2, env', w2);
      SameJoin(b, b2, b4, n + 2, {n + 1, n + 2}, {n + 2}, Br(n + 2, []), Br(n + 2, []), env', w2);
      ReachTrans(prim, g.blocks, Here(b, env, w), Here(b1, env1, w1), Here(b2, env', w2));
      ReachTrans(prim, g.blocks, Here(b, env, w), Here(b2, env', w2), Here(b5, env', w2));
      AgreeTrans(env, env1, env', b.next, b1.next);
    } else {
      BeginHere(b, b2, {n + 1, n + 2}, Br(n + 2, []), n + 1, env1, w1);
      env' := EffectRuns(prim, g, f, b3, env1, w1);
      var w2 := Eval(prim, f, w1).1;
      SwitchGrows(Emit(b4, Br(n + 2, [])), n + 2, g);
      MeetRuns(prim, g, b, b4, {n + 2}, n + 2, env', w2);
      ReachTrans(prim, g.blocks, Here(b, env, w), Here(b3, env1, w1), Here(b4, env', w2));
      ReachTrans(prim, g.blocks, Here(b, env, w), Here(b4, env', w2), Here(b5, env', w2));
      AgreeTrans(env, env1, env', b.next, b3.next);
    }
  }
}
