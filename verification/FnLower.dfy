/** The lowering object: it fills blocks as it walks the statements. Every
    method's effect is the function of the same step. */
module FnLowering {
  import opened Wrappers
  import opened Structured
  import opened BlockGraph
  import opened Lower

  class FnLower {
    var blocks: seq<Code>
    var cur: nat
    var terminated: bool
    var next: nat
    var breakTargets: seq<nat>
    var continueTargets: seq<nat>
    var switchBlocks: seq<seq<nat>>
    var labelBlocks: map<nat, nat>

    function St(): Builder
      reads this
    {
      Builder(blocks, cur, terminated, next, breakTargets, continueTargets, switchBlocks, labelBlocks)
    }

    constructor ()
      ensures St() == Fresh()
    {
      blocks, cur, terminated, next := [Code([], [])], 0, false, 0;
      breakTargets, continueTargets, switchBlocks, labelBlocks := [], [], [], map[];
    }

    // ------------------------------------------------------------- building

    method Append(item: Item)
      modifies this`blocks
      ensures St() == Emit(old(St()), item)
    {
      if cur < |blocks| {
        blocks := blocks[cur := blocks[cur].(items := blocks[cur].items + [item])];
      }
    }

    method CreateBlock() returns (bb: nat)
      modifies this`blocks
      ensures bb == |old(blocks)| && St() == NewBlock(old(St()))
    {
      bb := |blocks|;
      blocks := blocks + [Code([], [])];
    }

    method CreateJoin() returns (bb: nat)
      modifies this`blocks, this`next
      ensures bb == |old(blocks)| && St() == NewJoin(old(St()))
    {
      bb := |blocks|;
      blocks, next := blocks + [Code([next], [])], next + 1;
    }

    method Switch(bb: nat)
      modifies this`cur, this`terminated
      ensures St() == SwitchTo(old(St()), bb)
    {
      cur, terminated := bb, false;
    }

    method BranchUnlessTerminated(target: nat, bb: nat)
      modifies this
      ensures St() == Leave(old(St()), target, bb)
    {
      if !terminated { Append(Br(target, [])); }
      Switch(bb);
    }

    method EnsureLiveBlock()
      modifies this
      ensures St() == EnsureLive(old(St()))
    {
      if terminated {
        var bb := CreateBlock();
        Switch(bb);
      }
    }

    method BlockOfLabel(id: nat) returns (bb: nat)
      modifies this
      ensures (bb, St()) == LabelBlock(old(St()), id)
    {
      if id in labelBlocks {
        bb := labelBlocks[id];
      } else {
        bb := CreateBlock();
        labelBlocks := labelBlocks[id := bb];
      }
    }

    // ---------------------------------------------------------- expressions

    method LowerRvalue(e: Expr) returns (r: Ref)
      modifies this
      ensures (r, St()) == LowerExpr(e, old(St()))
      decreases e, 1
    {
      hide Emit, NewJoin, JoinValue;
      match e
      case Const(n) => r := Lit(n);
      case Op(op, args) =>
        var rs := LowerOperands(args);
        r := Reg(next);
        next := next + 1;
        Append(Prim(r.v, op, rs));
      case And(left, right) => r := LowerShortCircuit(e, left, right, true);
      case Or(left, right) => r := LowerShortCircuit(e, left, right, false);
      case Ternary(c, t, f) =>
        var n := TestTernary(e, c);
        var tv := LowerRvalue(t);
        EndBlock(Br(n + 2, [tv]), n + 1);
        var fv := LowerRvalue(f);
        r := Reg(JoinValue(St(), n + 2));
        EndBlock(Br(n + 2, [fv]), n + 2);
      case Comma(first, second) =>
        LowerForEffect(first);
        r := LowerRvalue(second);
    }

    method EndBlock(term: Item, bb: nat)
      modifies this
      ensures St() == EndWith(old(St()), term, bb)
    {
      Append(term);
      Switch(bb);
    }

    /** Test `c`: the block taken when it holds, then the other, then the join. */
    method TestTernary(ghost e: Expr, c: Expr) returns (n: nat)
      requires c < e
      modifies this
      ensures (St(), n) == ForkTernary(e, c, old(St()))
      decreases c, 3
    {
      hide Emit;
      var cond := TruthOf(c);
      ghost var b1 := St();
      n := CreateBlock();
      var other := CreateBlock();
      assert St() == NewBlocks(b1, 2) by { assert NewBlocks(b1, 1) == NewBlock(b1); }
      var _ := CreateJoin();
      EndBlock(CondBr(cond, n, [], other, []), n);
    }

    method TestEffect(ghost e: Expr, c: Expr) returns (n: nat)
      requires c < e
      modifies this
      ensures (St(), n) == ForkEffect(e, c, old(St()))
      decreases c, 3
    {
      hide Emit;
      var cond := TruthOf(c);
      ghost var b1 := St();
      n := CreateThree();
      EndBlock(CondBr(cond, n, [], n + 1, []), n);
    }

    method CreateThree() returns (n: nat)
      modifies this
      ensures n == |old(blocks)| && St() == NewBlocks(old(St()), 3)
    {
      ghost var b := St();
      n := CreateBlock();
      var _ := CreateBlock();
      assert St() == NewBlocks(b, 2) by { assert NewBlocks(b, 1) == NewBlock(b); }
      var _ := CreateBlock();
    }

    method LowerOperands(es: Exprs) returns (rs: seq<Ref>)
      modifies this
      ensures (rs, St()) == LowerArgs(es, old(St()))
      decreases es, 0
    {
      match es
      case NoExprs => rs := [];
      case MoreExprs(e, rest) =>
        var r := LowerRvalue(e);
        rs := LowerOperands(rest);
        rs := [r] + rs;
    }

    method TruthOf(e: Expr) returns (r: Ref)
      modifies this
      ensures (r, St()) == LowerTruth(e, old(St()))
      decreases e, 2
    {
      hide Emit;
      var v := LowerRvalue(e);
      r := Reg(next);
      next := next + 1;
      Append(NotZero(r.v, v));
    }

    method TestLogical(ghost e: Expr, left: Expr, isAnd: bool) returns (n: nat)
      requires left < e
      modifies this
      ensures (St(), n) == ForkLogical(e, left, isAnd, old(St()))
      decreases left, 3
    {
      hide Emit;
      var lv := TruthOf(left);
      n := CreateBlock();
      var join := CreateJoin();
      EndBlock(if isAnd then CondBr(lv, n, [], join, [Lit(0)]) else CondBr(lv, join, [Lit(1)], n, []), n);
    }

    method LowerShortCircuit(ghost e: Expr, left: Expr, right: Expr, isAnd: bool) returns (r: Ref)
      requires left < e && right < e
      modifies this
      ensures (r, St()) == LowerLogical(e, left, right, isAnd, old(St()))
      decreases e, 0
    {
      hide Emit, ForkLogical, JoinValue;
      var n := TestLogical(e, left, isAnd);
      var rv := TruthOf(right);
      EndBlock(Br(n + 1, [rv]), n + 1);
      var p := JoinValue(St(), n + 1);
      r := Reg(next);
      next := next + 1;
      Append(Extend(r.v, Reg(p)));
    }

    method LowerForEffect(e: Expr)
      modifies this
      ensures St() == LowerEffect(e, old(St()))
      decreases e, 2
    {
      hide Emit, ForkEffect;
      match e
      case Comma(first, second) =>
        LowerForEffect(first);
        LowerForEffect(second);
      case Ternary(c, t, f) =>
        var n := TestEffect(e, c);
        LowerForEffect(t);
        EndBlock(Br(n + 2, []), n + 1);
        LowerForEffect(f);
        EndBlock(Br(n + 2, []), n + 2);
      case _ => var _ := LowerRvalue(e);
    }

    // ----------------------------------------------------------- statements

    method LowerStatements(ss: Stmts)
      modifies this
      ensures St() == LowerBlock(ss, old(St()))
      decreases ss, 9
    {
      match ss
      case NoStmts =>
      case MoreStmts(s, rest) =>
        LowerStatement(s);
        LowerStatements(rest);
    }

    method LowerStatement(s: Stmt)
      modifies this
      ensures St() == LowerStmt(s, old(St()))
      decreases s, 9
    {
      hide Emit, LowerLive, LowerBlock, NewBlock;
      match s
      case Block(ss) => LowerStatements(ss);
      case CaseMark(id) =>
        if switchBlocks != [] && id < |switchBlocks[|switchBlocks| - 1]| {
          var bb := switchBlocks[|switchBlocks| - 1][id];
          BranchUnlessTerminated(bb, bb);
        }
      case Labeled(id, inner) =>
        var bb := BlockOfLabel(id);
        BranchUnlessTerminated(bb, bb);
        LowerStatement(inner);
      case _ =>
        EnsureLiveBlock();
        LowerOne(s);
    }

    method LowerOne(s: Stmt)
      modifies this
      ensures St() == LowerLive(s, old(St()))
      decreases s, 8
    {
      match s
      case Empty =>
      case Do(e) => LowerForEffect(e);
      case Return(None) => Append(Ret(None)); terminated := true;
      case Return(Some(e)) =>
        var v := LowerRvalue(e);
        Append(Ret(Some(v)));
        terminated := true;
      case Break =>
        if breakTargets != [] {
          Append(Br(Last(breakTargets), []));
          terminated := true;
        }
      case Continue =>
        if continueTargets != [] {
          Append(Br(Last(continueTargets), []));
          terminated := true;
        }
      case Goto(id) =>
        var bb := BlockOfLabel(id);
        Append(Br(bb, []));
        terminated := true;
      case If(_, _, _) => LowerIf(s);
      case While(_, _) => LowerWhile(s);
      case DoWhile(_, _) => LowerDoWhile(s);
      case For(_, _, _, _) => LowerFor(s);
      case Switch(_, _, _, _, _) => LowerSwitch(s);
      case _ =>
    }

    method LowerIf(s: Stmt)
      requires s.If?
      modifies this
      ensures St() == LowerLive(s, old(St()))
      decreases s, 7
    {
      hide Emit, Base, NewBlocks, LowerStmt;
      ghost var b := St();
      var n := TestIf(s);
      LowerStatement(s.arm);
      assert St() == InPart(s, 0, b);
      if s.els.Some? {
        BranchUnlessTerminated(n + 1, n + 2);
        assert St() == Open(s, 1, b);
        LowerStatement(s.els.value);
      }
      BranchUnlessTerminated(n + 1, n + 1);
    }

    method TestIf(s: Stmt) returns (n: nat)
      requires s.If?
      modifies this
      ensures St() == Open(s, 0, old(St())) && n == Base(s, old(St()))
      decreases s, 6
    {
      hide Emit;
      var cond := TruthOf(s.cond);
      ghost var b1 := St();
      n := CreateBlock();
      var _ := CreateBlock();
      assert St() == NewBlocks(b1, 2) by { assert NewBlocks(b1, 1) == NewBlock(b1); }
      if s.els.Some? {
        var _ := CreateBlock();
        assert St() == NewBlocks(b1, 3);
      }
      EndBlock(CondBr(cond, n, [], if s.els.Some? then n + 2 else n + 1, []), n);
    }

    method LowerWhile(s: Stmt)
      requires s.While?
      modifies this
      ensures St() == LowerLive(s, old(St()))
      decreases s, 7
    {
      hide Emit, NewBlocks, LowerStmt;
      var n := OpenLoop(s);
      LowerStatement(s.body);
      PopLoop();
      BranchUnlessTerminated(n, n + 2);
    }

    /** The blocks of a loop, up to its body. */
    method OpenLoop(s: Stmt) returns (n: nat)
      requires s.While? || s.DoWhile?
      modifies this
      ensures St() == Open(s, 0, old(St())) && n == Base(s, old(St()))
      decreases s, 6
    {
      hide Emit, NewBlocks;
      n := CreateThree();
      EndBlock(Br(n, []), n);
      if s.While? {
        var cond := TruthOf(s.cond);
        EndBlock(CondBr(cond, n + 1, [], n + 2, []), n + 1);
        PushLoop(n, n + 2);
      } else {
        PushLoop(n + 1, n + 2);
      }
    }

    method PushLoop(again: nat, exit: nat)
      modifies this`continueTargets, this`breakTargets
      ensures St() == EnterLoop(old(St()), again, exit)
    {
      continueTargets, breakTargets := continueTargets + [again], breakTargets + [exit];
    }

    method PopLoop()
      modifies this`continueTargets, this`breakTargets
      ensures St() == LeaveLoop(old(St()))
    {
      continueTargets, breakTargets := Pop(continueTargets), Pop(breakTargets);
    }

    method LowerDoWhile(s: Stmt)
      requires s.DoWhile?
      modifies this
      ensures St() == LowerLive(s, old(St()))
      decreases s, 7
    {
      hide Emit, NewBlocks, LowerStmt, LowerTruth;
      var n := OpenLoop(s);
      LowerStatement(s.body);
      PopLoop();
      BranchUnlessTerminated(n + 1, n + 1);
      var cond := TruthOf(s.cond);
      EndBlock(CondBr(cond, n, [], n + 2, []), n + 2);
    }

    method LowerFor(s: Stmt)
      requires s.For?
      modifies this
      ensures St() == LowerLive(s, old(St()))
      decreases s, 7
    {
      hide Emit, NewBlocks, LowerStmt, Open;
      ghost var b := St();
      var n := OpenFor(s);
      LowerStatement(s.body);
      assert St() == InPart(s, 1, b);
      CloseFor(s, n, b);
    }

    method OpenFor(s: Stmt) returns (n: nat)
      requires s.For?
      modifies this
      ensures St() == Open(s, 1, old(St())) && n == Base(s, old(St()))
      decreases s, 6
    {
      hide Emit, NewBlocks, LowerStmt, ForHead;
      if s.init.Some? { LowerStatement(s.init.value); }
      n := CreateFour();
      EndBlock(Br(n, []), n);
      TestFor(s, s.test, n);
      PushLoop(n + 2, n + 3);
    }

    method CreateFour() returns (n: nat)
      modifies this
      ensures n == |old(blocks)| && St() == NewBlocks(old(St()), 4)
    {
      n := CreateThree();
      var _ := CreateBlock();
    }

    method TestFor(ghost s: Stmt, test: Option<Expr>, n: nat)
      requires test < s
      modifies this
      ensures St() == ForHead(test, n, old(St()))
      decreases s, 5
    {
      hide Emit;
      if test.Some? {
        var cond := TruthOf(test.value);
        EndBlock(CondBr(cond, n + 1, [], n + 3, []), n + 1);
      } else {
        EndBlock(Br(n + 1, []), n + 1);
      }
    }

    method CloseFor(s: Stmt, n: nat, ghost b: Builder)
      requires s.For? && n == Base(s, b)
      modifies this
      ensures St() == Close(s, b, old(St()))
      decreases s, 6
    {
      hide Emit, Base;
      PopLoop();
      BranchUnlessTerminated(n + 2, n + 2);
      if s.step.Some? { LowerForEffect(s.step.value); }
      EndBlock(Br(n, []), n + 3);
    }

    method LowerSwitch(s: Stmt)
      requires s.Switch?
      modifies this
      ensures St() == LowerLive(s, old(St()))
      decreases s, 7
    {
      hide Emit, NewBlocks, LowerStmt, Open;
      ghost var b := St();
      var n := OpenSwitch(s);
      LowerStatement(s.body);
      assert St() == InPart(s, 0, b);
      switchBlocks, breakTargets := Pop(switchBlocks), Pop(breakTargets);
      BranchUnlessTerminated(n + s.marks, n + s.marks);
    }

    method OpenSwitch(s: Stmt) returns (n: nat)
      requires s.Switch?
      modifies this
      ensures St() == Open(s, 0, old(St())) && n == Base(s, old(St()))
      decreases s, 6
    {
      hide Emit, LowerExpr;
      var v := LowerRvalue(s.scrutinee);
      n := CreateMany(s.marks + 1);
      Append(SwitchBr(v, if s.default.Some? then n + s.default.value else n + s.marks, Cases(s.cases, n)));
      terminated := true;
      switchBlocks, breakTargets := switchBlocks + [Consecutive(n, s.marks)], breakTargets + [n + s.marks];
    }

    method CreateMany(count: nat) returns (n: nat)
      modifies this
      ensures n == |old(blocks)| && St() == NewBlocks(old(St()), count)
    {
      n := |blocks|;
      for i := 0 to count
        invariant St() == NewBlocks(old(St()), i)
      {
        var _ := CreateBlock();
      }
    }
  }

  /** Lower a whole function. */
  method LowerFunction(fn: Fn) returns (blocks: seq<Code>)
    ensures blocks == LowerFn(fn).blocks
  {
    var fl := new FnLower();
    fl.LowerStatements(fn.body);
    if !fl.terminated {
      fl.Append(Ret(if fn.isVoid then None else Some(Lit(0))));
      fl.terminated := true;
    }
    blocks := fl.blocks;
  }
}
