/** Lowering structured statements to blocks, as functions of the builder's
    state. */
module Lower {
  import opened Wrappers
  import opened Structured
  import opened BlockGraph

  /** The builder: the blocks made so far, the block being filled and whether
      control has left it, the next value, and what `break`, `continue`, case
      marks and labels refer to. */
  datatype Builder = Builder(blocks: seq<Code>, cur: nat, terminated: bool, next: nat,
                             breaks: seq<nat>, continues: seq<nat>, marks: seq<seq<nat>>,
                             labels: map<nat, nat>)

  // ------------------------------------------------------------- primitives

  /** Append to the current block. */
  function Emit(b: Builder, item: Item): Builder {
    if b.cur < |b.blocks| then
      b.(blocks := b.blocks[b.cur := b.blocks[b.cur].(items := b.blocks[b.cur].items + [item])])
    else b
  }

  function NewBlock(b: Builder): Builder {
    b.(blocks := b.blocks + [Code([], [])])
  }

  function NewBlocks(b: Builder, n: nat): (r: Builder)
    ensures r == b.(blocks := b.blocks + seq(n, _ => Code([], [])))
  {
    if n == 0 then b else NewBlock(NewBlocks(b, n - 1))
  }

  /** A block with one parameter, the builder's next value. */
  function NewJoin(b: Builder): Builder {
    b.(blocks := b.blocks + [Code([b.next], [])], next := b.next + 1)
  }

  function SwitchTo(b: Builder, bb: nat): Builder {
    b.(cur := bb, terminated := false)
  }

  /** End the current block with `term` and go on filling `bb`. */
  function EndWith(b: Builder, term: Item, bb: nat): Builder {
    SwitchTo(Emit(b, term), bb)
  }

  /** Branch to `target` unless control has already left, and go on with `bb`. */
  function Leave(b: Builder, target: nat, bb: nat): Builder {
    SwitchTo(if b.terminated then b else Emit(b, Br(target, [])), bb)
  }

  /** End the current block; nothing follows until a block is chosen. */
  function Finish(b: Builder, term: Item): Builder {
    Emit(b, term).(terminated := true)
  }

  /** Dead code goes to a fresh block. */
  function EnsureLive(b: Builder): Builder {
    if b.terminated then SwitchTo(NewBlock(b), |b.blocks|) else b
  }

  /** The block of a label, made when first mentioned. */
  function LabelBlock(b: Builder, id: nat): (nat, Builder) {
    if id in b.labels then (b.labels[id], b)
    else (|b.blocks|, NewBlock(b).(labels := b.labels[id := |b.blocks|]))
  }

  function Last(s: seq<nat>): nat
    requires s != []
  {
    s[|s| - 1]
  }

  function Pop<T>(s: seq<T>): seq<T> {
    if s == [] then s else s[..|s| - 1]
  }

  function EnterLoop(b: Builder, again: nat, exit: nat): Builder {
    b.(continues := b.continues + [again], breaks := b.breaks + [exit])
  }

  function LeaveLoop(b: Builder): Builder {
    b.(continues := Pop(b.continues), breaks := Pop(b.breaks))
  }

  function EnterSwitch(b: Builder, marks: seq<nat>, exit: nat): Builder {
    b.(marks := b.marks + [marks], breaks := b.breaks + [exit])
  }

  function LeaveSwitch(b: Builder): Builder {
    b.(marks := Pop(b.marks), breaks := Pop(b.breaks))
  }

  // ------------------------------------------------------------ expressions

  /** Lower `e` for its value. */
  function LowerExpr(e: Expr, b: Builder): (Ref, Builder)
    decreases e, 1
  {
    match e
    case Const(n) => (Lit(n), b)
    case Op(op, args) =>
      var (rs, b1) := LowerArgs(args, b);
      (Reg(b1.next), Emit(b1.(next := b1.next + 1), Prim(b1.next, op, rs)))
    case And(l, r) => LowerLogical(e, l, r, true, b)
    case Or(l, r) => LowerLogical(e, l, r, false, b)
    case Ternary(c, t, f) =>
      var (b1, n) := ForkTernary(e, c, b);
      var (tv, b2) := LowerExpr(t, b1);
      var (fv, b3) := LowerExpr(f, EndWith(b2, Br(n + 2, [tv]), n + 1));
      (Reg(JoinValue(b3, n + 2)), EndWith(b3, Br(n + 2, [fv]), n + 2))
    case Comma(first, second) => LowerExpr(second, LowerEffect(first, b))
  }

  /** Test `c` and branch to two fresh blocks; a third joins their values. */
  function ForkTernary(ghost e: Expr, c: Expr, b: Builder): (Builder, nat)
    requires c < e
    decreases c, 3
  {
    var (cv, b1) := LowerTruth(c, b);
    var n := |b1.blocks|;
    (EndWith(NewJoin(NewBlocks(b1, 2)), CondBr(cv, n, [], n + 1, []), n), n)
  }

  function JoinValue(b: Builder, bb: nat): nat {
    if bb < |b.blocks| && b.blocks[bb].params != [] then b.blocks[bb].params[0] else 0
  }

  /** `l && r` and `l || r`: the right side in its own block, both outcomes
      meeting in a block whose parameter is the truth value. */
  function LowerLogical(ghost e: Expr, l: Expr, r: Expr, isAnd: bool, b: Builder): (Ref, Builder)
    requires l < e && r < e
    decreases e, 0
  {
    var (b1, n) := ForkLogical(e, l, isAnd, b);
    var (rv, b2) := LowerTruth(r, b1);
    var b3 := EndWith(b2, Br(n + 1, [rv]), n + 1);
    (Reg(b3.next), Emit(b3.(next := b3.next + 1), Extend(b3.next, Reg(JoinValue(b3, n + 1)))))
  }

  function ForkLogical(ghost e: Expr, l: Expr, isAnd: bool, b: Builder): (Builder, nat)
    requires l < e
    decreases l, 3
  {
    var (lv, b1) := LowerTruth(l, b);
    var n := |b1.blocks|;
    var term := if isAnd then CondBr(lv, n, [], n + 1, [Lit(0)]) else CondBr(lv, n + 1, [Lit(1)], n, []);
    (EndWith(NewJoin(NewBlock(b1)), term, n), n)
  }

  /** Whether `e` is nonzero. */
  function LowerTruth(e: Expr, b: Builder): (Ref, Builder)
    decreases e, 2
  {
    var (v, b1) := LowerExpr(e, b);
    (Reg(b1.next), Emit(b1.(next := b1.next + 1), NotZero(b1.next, v)))
  }

  /** Lower `e` for its effects; a discarded `?:` needs no joined value. */
  function LowerEffect(e: Expr, b: Builder): Builder
    decreases e, 2
  {
    match e
    case Comma(first, second) => LowerEffect(second, LowerEffect(first, b))
    case Ternary(c, t, f) =>
      var (b1, n) := ForkEffect(e, c, b);
      EndWith(LowerEffect(f, EndWith(LowerEffect(t, b1), Br(n + 2, []), n + 1)), Br(n + 2, []), n + 2)
    case _ => LowerExpr(e, b).1
  }

  function ForkEffect(ghost e: Expr, c: Expr, b: Builder): (Builder, nat)
    requires c < e
    decreases c, 3
  {
    var (cv, b1) := LowerTruth(c, b);
    var n := |b1.blocks|;
    (EndWith(NewBlocks(b1, 3), CondBr(cv, n, [], n + 1, []), n), n)
  }

  function LowerArgs(es: Exprs, b: Builder): (seq<Ref>, Builder)
    decreases es, 0
  {
    match es
    case NoExprs => ([], b)
    case MoreExprs(e, rest) =>
      var (r, b1) := LowerExpr(e, b);
      var (rs, b2) := LowerArgs(rest, b1);
      ([r] + rs, b2)
  }

  // ------------------------------------------------------------- statements

  /** Does lowering this statement skip the check for dead code? */
  predicate IsMarker(s: Stmt) {
    s.Block? || s.CaseMark? || s.Labeled?
  }

  function LowerStmt(s: Stmt, b: Builder): Builder
    decreases s, 3, 0
  {
    match s
    case Block(ss) => LowerBlock(ss, b)
    case CaseMark(id) =>
      if b.marks != [] && id < |b.marks[|b.marks| - 1]| then
        var bb := b.marks[|b.marks| - 1][id];
        Leave(b, bb, bb)
      else b
    case Labeled(id, inner) => LowerStmt(inner, AtLabelBlock(b, id))
    case _ => LowerLive(s, EnsureLive(b))
  }

  /** Fall into the block of label `id`. */
  function AtLabelBlock(b: Builder, id: nat): Builder {
    var (bb, b1) := LabelBlock(b, id);
    Leave(b1, bb, bb)
  }

  function LowerBlock(ss: Stmts, b: Builder): Builder
    decreases ss, 3, 0
  {
    match ss
    case NoStmts => b
    case MoreStmts(s, rest) => LowerBlock(rest, LowerStmt(s, b))
  }

  /** Lower a statement into a live block. */
  function LowerLive(s: Stmt, b: Builder): Builder
    decreases s, 2, 0
  {
    match s
    case Empty => b
    case Do(e) => LowerEffect(e, b)
    case Return(None) => Finish(b, Ret(None))
    case Return(Some(e)) => var (v, b1) := LowerExpr(e, b); Finish(b1, Ret(Some(v)))
    case Break => if b.breaks == [] then b else Finish(b, Br(Last(b.breaks), []))
    case Continue => if b.continues == [] then b else Finish(b, Br(Last(b.continues), []))
    case Goto(id) => var (bb, b1) := LabelBlock(b, id); Finish(b1, Br(bb, []))
    case _ => if Compound(s) then Close(s, b, InPart(s, LastPart(s), b)) else b
  }

  predicate Compound(s: Stmt) {
    s.If? || s.While? || s.DoWhile? || s.For? || s.Switch?
  }

  function LastPart(s: Stmt): (r: nat)
    ensures Compound(s) ==> HasPart(s, r) && forall p: nat :: HasPart(s, p) ==> p <= r
  {
    if s.For? || (s.If? && s.els.Some?) then 1 else 0
  }

  /** The builder when part `part` of `s` has been lowered. */
  function InPart(s: Stmt, part: nat, b: Builder): Builder
    requires HasPart(s, part)
    decreases s, 1, part
  {
    LowerStmt(Part(s, part), Open(s, part, b))
  }

  /** The block count when `s` numbers its own blocks. */
  function Base(s: Stmt, b: Builder): nat
    decreases s, 0, 3
  {
    match s
    case If(c, _, _) => |LowerTruth(c, b).1.blocks|
    case For(init, _, _, _) => if init.Some? then |LowerStmt(init.value, b).blocks| else |b.blocks|
    case Switch(v, _, _, _, _) => |LowerExpr(v, b).1.blocks|
    case _ => |b.blocks|
  }

  /** The builder when part `part` of `s` is about to be lowered. */
  function Open(s: Stmt, part: nat, b: Builder): Builder
    requires HasPart(s, part)
    decreases s, 0, 4 + 2 * part
  {
    match s
    case If(c, arm, els) =>
      if part == 0 then
        var (cv, b1) := LowerTruth(c, b);
        var n := |b1.blocks|;
        var b2 := NewBlocks(b1, if els.Some? then 3 else 2);
        EndWith(b2, CondBr(cv, n, [], if els.Some? then n + 2 else n + 1, []), n)
      else
        var n := Base(s, b);
        Leave(LowerStmt(arm, Open(s, 0, b)), n + 1, n + 2)
    case While(c, _) =>
      var n := |b.blocks|;
      var (cv, b1) := LowerTruth(c, EndWith(NewBlocks(b, 3), Br(n, []), n));
      EnterLoop(EndWith(b1, CondBr(cv, n + 1, [], n + 2, []), n + 1), n, n + 2)
    case DoWhile(_, _) =>
      var n := |b.blocks|;
      EnterLoop(EndWith(NewBlocks(b, 3), Br(n, []), n), n + 1, n + 2)
    case For(init, test, _, _) =>
      if part == 0 then b
      else
        var n := Base(s, b);
        var b1 := if init.Some? then LowerStmt(init.value, b) else b;
        EnterLoop(ForHead(test, n, EndWith(NewBlocks(b1, 4), Br(n, []), n)), n + 2, n + 3)
    case Switch(v, cases, default, marks, _) =>
      var (x, b1) := LowerExpr(v, b);
      var n := |b1.blocks|;
      var b2 := NewBlocks(b1, marks + 1);
      var b3 := Finish(b2, SwitchBr(x, if default.Some? then n + default.value else n + marks, Cases(cases, n)));
      EnterSwitch(b3, Consecutive(n, marks), n + marks)
  }

  function Consecutive(n: nat, count: nat): (r: seq<nat>)
    ensures |r| == count && forall i :: 0 <= i < count ==> r[i] == n + i
  {
    seq(count, i requires 0 <= i < count => n + i)
  }

  /** The head of a `for`: test, or go straight to the body. */
  function ForHead(test: Option<Expr>, n: nat, b: Builder): Builder {
    match test
    case Some(c) => var (cv, b1) := LowerTruth(c, b); EndWith(b1, CondBr(cv, n + 1, [], n + 3, []), n + 1)
    case None => EndWith(b, Br(n + 1, []), n + 1)
  }

  function Cases(cases: seq<Arm>, n: nat): (r: seq<Case>)
    ensures |r| == |cases|
    ensures forall i :: 0 <= i < |r| ==> r[i] == Case(cases[i].constant, n + cases[i].mark)
  {
    seq(|cases|, i requires 0 <= i < |cases| => Case(cases[i].constant, n + cases[i].mark))
  }

  /** Close a statement begun at `b`, its last part lowered to `b1`. */
  function Close(s: Stmt, b: Builder, b1: Builder): Builder
    decreases s, 0, 7
  {
    var n := Base(s, b);
    match s
    case If(_, _, _) => Leave(b1, n + 1, n + 1)
    case While(_, _) => Leave(LeaveLoop(b1), n, n + 2)
    case DoWhile(_, c) =>
      var (cv, b2) := LowerTruth(c, Leave(LeaveLoop(b1), n + 1, n + 1));
      EndWith(b2, CondBr(cv, n, [], n + 2, []), n + 2)
    case For(_, _, step, _) =>
      var b2 := Leave(LeaveLoop(b1), n + 2, n + 2);
      EndWith(if step.Some? then LowerEffect(step.value, b2) else b2, Br(n, []), n + 3)
    case Switch(_, _, _, marks, _) => Leave(LeaveSwitch(b1), n + marks, n + marks)
    case _ => b1
  }

  /** A whole function: its body, and a return where control falls off. */
  function LowerFn(fn: Fn): Builder {
    LowerEnd(fn, LowerBlock(fn.body, Fresh()))
  }

  function Fresh(): Builder {
    Builder([Code([], [])], 0, false, 0, [], [], [], map[])
  }

  function LowerEnd(fn: Fn, b: Builder): Builder {
    if b.terminated then b else Finish(b, Ret(if fn.isVoid then None else Some(Lit(0))))
  }
}
