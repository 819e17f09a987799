/** Every block of a lowered function ends with exactly one terminator. */
module LowerSealed {
  import opened Wrappers
  import opened Structured
  import opened BlockGraph
  import opened Lower
  import opened LowerShape
  import opened LowerStmts

  // ------------------------------------------- what lowering leaves as it was

  /** `break`, `continue` and marks refer to what they did; labels outside
      `all` were already known. */
  ghost predicate Keeps(b: Builder, b1: Builder, all: set<nat>) {
    && b1.breaks == b.breaks && b1.continues == b.continues && b1.marks == b.marks
    && (forall l :: l in b1.labels ==> l in b.labels || l in all)
  }

  lemma {:induction false} ExprKeeps(e: Expr, b: Builder)
    ensures Keeps(b, LowerExpr(e, b).1, {})
    decreases e, 1
  {
    match e
    case Const(_) =>
    case Op(_, args) => ArgsKeep(args, b);
    case And(l, r) => LogicalKeeps(e, l, r, true, b);
    case Or(l, r) => LogicalKeeps(e, l, r, false, b);
    case Ternary(c, t, f) =>
      TruthKeeps(c, b);
      var (b1, n) := ForkTernary(e, c, b);
      ExprKeeps(t, b1);
      var (tv, b2) := LowerExpr(t, b1);
      ExprKeeps(f, EndWith(b2, Br(n + 2, [tv]), n + 1));
    case Comma(first, second) =>
      EffectKeeps(first, b);
      ExprKeeps(second, LowerEffect(first, b));
  }

  lemma {:induction false} LogicalKeeps(e: Expr, l: Expr, r: Expr, isAnd: bool, b: Builder)
    requires l < e && r < e
    ensures Keeps(b, LowerLogical(e, l, r, isAnd, b).1, {})
    decreases e, 0
  {
    TruthKeeps(l, b);
    TruthKeeps(r, ForkLogical(e, l, isAnd, b).0);
  }

  lemma {:induction false} TruthKeeps(e: Expr, b: Builder)
    ensures Keeps(b, LowerTruth(e, b).1, {})
    decreases e, 2
  {
    ExprKeeps(e, b);
  }

  lemma {:induction false} EffectKeeps(e: Expr, b: Builder)
    ensures Keeps(b, LowerEffect(e, b), {})
    decreases e, 2
  {
    hide LowerExpr, LowerTruth;
    match e
    case Comma(first, second) =>
      EffectKeeps(first, b);
      EffectKeeps(second, LowerEffect(first, b));
    case Ternary(c, t, f) =>
      TruthKeeps(c, b);
      var (b1, n) := ForkEffect(e, c, b);
      EffectKeeps(t, b1);
      EffectKeeps(f, EndWith(LowerEffect(t, b1), Br(n + 2, []), n + 1));
    case _ => ExprKeeps(e, b);
  }

  lemma {:induction false} ArgsKeep(es: Exprs, b: Builder)
    ensures Keeps(b, LowerArgs(es, b).1, {})
    decreases es, 1
  {
    match es
    case NoExprs =>
    case MoreExprs(e, rest) => ExprKeeps(e, b); ArgsKeep(rest, LowerExpr(e, b).1);
  }

  lemma KeepsTrans(b: Builder, b1: Builder, b2: Builder, all: set<nat>)
    requires Keeps(b, b1, all) && Keeps(b1, b2, all)
    ensures Keeps(b, b2, all)
  { }

  lemma {:induction false} BlockKeeps(ss: Stmts, b: Builder, all: set<nat>)
    requires LabelsIn(ss) <= all && AllGotosIn(ss, all)
    ensures Keeps(b, LowerBlock(ss, b), all)
    decreases ss, 9, 0
  {
    hide Keeps;
    match ss
    case NoStmts => assert Keeps(b, b, all) by { KeepsSelf(b, all); }
    case MoreStmts(s, rest) =>
      StmtKeeps(s, b, all);
      BlockKeeps(rest, LowerStmt(s, b), all);
      KeepsTrans(b, LowerStmt(s, b), LowerBlock(ss, b), all);
  }

  lemma KeepsSelf(b: Builder, all: set<nat>)
    ensures Keeps(b, b, all)
  { }

  lemma {:induction false} StmtKeeps(s: Stmt, b: Builder, all: set<nat>)
    requires Labels(s) <= all && GotosIn(s, all)
    ensures Keeps(b, LowerStmt(s, b), all)
    decreases s, 8, 0
  {
    hide LowerLive, LowerBlock;
    if s.Block? {
      BlockKeeps(s.stmts, b, all);
    } else if s.CaseMark? {
    } else if s.Labeled? {
      assert s.id in Labels(s);
      StmtKeeps(s.inner, AtLabelBlock(b, s.id), all);
    } else {
      LiveKeeps(s, EnsureLive(b), all);
    }
  }

  /** Where control goes on after compound statement `s` begun at `b`. */
  function End(s: Stmt, b: Builder): nat {
    var n := Base(s, b);
    match s
    case If(_, _, _) => n + 1
    case For(_, _, _, _) => n + 3
    case Switch(_, _, _, marks, _) => n + marks
    case _ => n + 2
  }

  /** Where `continue` goes in loop `s` begun at `b`. */
  function Again(s: Stmt, b: Builder): nat {
    Base(s, b) + (if s.DoWhile? then 1 else if s.For? then 2 else 0)
  }

  /** The stacks while part `part` of `s`, begun at `b`, is lowered. */
  ghost predicate Stacked(s: Stmt, part: nat, b: Builder, b1: Builder, all: set<nat>) {
    && (forall l :: l in b1.labels ==> l in b.labels || l in all)
    && b1.breaks == (if Breakable(s, part) then b.breaks + [End(s, b)] else b.breaks)
    && b1.continues == (if Continuable(s, part) then b.continues + [Again(s, b)] else b.continues)
    && b1.marks == (if s.Switch? then b.marks + [Consecutive(Base(s, b), s.marks)] else b.marks)
  }

  lemma {:induction false} OpenKeeps(s: Stmt, part: nat, b: Builder, all: set<nat>)
    requires HasPart(s, part) && Labels(s) <= all && GotosIn(s, all)
    ensures Stacked(s, part, b, Open(s, part, b), all)
    decreases s, 3, 2 * part
  {
    hide LowerStmt, LowerTruth, Keeps, Emit, NewBlocks;
    match s
    case If(c, _, _) =>
      if part == 1 { PartKeeps(s, 0, b, all); OpenElseKeeps(s, b, all); } else { OpenIfKeeps(s, b, all); }
    case While(_, _) => OpenWhileKeeps(s, b, all);
    case DoWhile(_, _) => EmitKeeps(NewBlocks(b, 3), Br(|b.blocks|, []));
    case For(init, _, _, _) =>
      if part == 1 {
        if init.Some? { StmtKeeps(init.value, b, all); } else { KeepsSelf(b, all); }
        OpenForKeeps(s, b, all);
      }
    case Switch(_, _, _, _, _) => OpenSwitchKeeps(s, b, all);
  }

  lemma OpenElseKeeps(s: Stmt, b: Builder, all: set<nat>)
    requires s.If? && HasPart(s, 1) && Stacked(s, 0, b, InPart(s, 0, b), all)
    ensures Stacked(s, 1, b, Open(s, 1, b), all)
  {
    hide Base, LowerTruth, LowerStmt;
    assert Open(s, 1, b) == Leave(InPart(s, 0, b), Base(s, b) + 1, Base(s, b) + 2);
  }

  lemma OpenIfKeeps(s: Stmt, b: Builder, all: set<nat>)
    requires s.If?
    ensures Stacked(s, 0, b, Open(s, 0, b), all)
  {
    hide LowerTruth;
    TruthKeeps(s.cond, b);
  }

  lemma OpenWhileKeeps(s: Stmt, b: Builder, all: set<nat>)
    requires s.While?
    ensures Stacked(s, 0, b, Open(s, 0, b), all)
  {
    hide LowerTruth;
    var n := |b.blocks|;
    TruthKeeps(s.cond, EndWith(NewBlocks(b, 3), Br(n, []), n));
  }

  lemma OpenForKeeps(s: Stmt, b: Builder, all: set<nat>)
    requires s.For? && Keeps(b, if s.init.Some? then LowerStmt(s.init.value, b) else b, all)
    ensures Stacked(s, 1, b, Open(s, 1, b), all)
  {
    hide LowerTruth, LowerStmt;
    var n := Base(s, b);
    var b1 := if s.init.Some? then LowerStmt(s.init.value, b) else b;
    if s.test.Some? { TruthKeeps(s.test.value, EndWith(NewBlocks(b1, 4), Br(n, []), n)); }
  }

  lemma OpenSwitchKeeps(s: Stmt, b: Builder, all: set<nat>)
    requires s.Switch?
    ensures Stacked(s, 0, b, Open(s, 0, b), all)
  {
    hide LowerExpr;
    ExprKeeps(s.scrutinee, b);
  }

  lemma {:induction false} PartKeeps(s: Stmt, part: nat, b: Builder, all: set<nat>)
    requires HasPart(s, part) && Labels(s) <= all && GotosIn(s, all)
    ensures Stacked(s, part, b, InPart(s, part, b), all)
    decreases s, 3, 2 * part + 1
  {
    hide LowerStmt, Open;
    OpenKeeps(s, part, b, all);
    PartsKnown(s, part, all);
    StmtKeeps(Part(s, part), Open(s, part, b), all);
  }

  lemma PartsKnown(s: Stmt, part: nat, all: set<nat>)
    requires HasPart(s, part) && Labels(s) <= all && GotosIn(s, all)
    ensures Labels(Part(s, part)) <= all && GotosIn(Part(s, part), all)
  { }

  lemma {:induction false} LiveKeeps(s: Stmt, b: Builder, all: set<nat>)
    requires Labels(s) <= all && GotosIn(s, all) && !IsMarker(s)
    ensures Keeps(b, LowerLive(s, b), all)
    decreases s, 5, 0
  {
    hide LowerStmt, Open, Close;
    if Compound(s) {
      PartKeeps(s, LastPart(s), b, all);
      CloseKeeps(s, b, InPart(s, LastPart(s), b), all);
      assert LowerLive(s, b) == Close(s, b, InPart(s, LastPart(s), b));
    } else {
      match s
      case Do(e) => EffectKeeps(e, b);
      case Return(Some(e)) => ExprKeeps(e, b);
      case _ =>
    }
  }

  lemma CloseKeeps(s: Stmt, b: Builder, b1: Builder, all: set<nat>)
    requires Compound(s) && Stacked(s, LastPart(s), b, b1, all)
    ensures Keeps(b, Close(s, b, b1), all)
  {
    hide Base, LowerTruth, LowerEffect;
    var n := Base(s, b);
    assert forall s: seq<nat>, x: nat :: Pop(s + [x]) == s;
    assert forall s: seq<seq<nat>>, x: seq<nat> :: Pop(s + [x]) == s;
    match s
    case DoWhile(_, c) => DoCloseKeeps(s, b, b1, all);
    case For(_, _, step, _) => ForCloseKeeps(s, b, b1, all);
    case _ =>
  }

  lemma DoCloseKeeps(s: Stmt, b: Builder, b1: Builder, all: set<nat>)
    requires s.DoWhile? && Stacked(s, LastPart(s), b, b1, all)
    ensures Keeps(b, Close(s, b, b1), all)
  {
    hide Base, LowerTruth;
    var n := Base(s, b);
    assert forall s: seq<nat>, x: nat :: Pop(s + [x]) == s;
    TruthKeeps(s.cond, Leave(LeaveLoop(b1), n + 1, n + 1));
  }

  lemma ForCloseKeeps(s: Stmt, b: Builder, b1: Builder, all: set<nat>)
    requires s.For? && Stacked(s, LastPart(s), b, b1, all)
    ensures Keeps(b, Close(s, b, b1), all)
  {
    hide Base, LowerEffect;
    var n := Base(s, b);
    assert forall s: seq<nat>, x: nat :: Pop(s + [x]) == s;
    if s.step.Some? { EffectKeeps(s.step.value, Leave(LeaveLoop(b1), n + 2, n + 2)); }
  }

  // --------------------------------------------------------------- the result

  lemma FreshReady(fn: Fn)
    requires CheckedFn(fn)
    ensures ReadyIn(fn.body, Fresh())
  {
    var b := Fresh();
    forall i: nat | i < |b.blocks| ensures BlockOk(b, i) { }
  }

  lemma BodyShape(fn: Fn)
    requires CheckedFn(fn)
    ensures Progress(Fresh(), LowerBlock(fn.body, Fresh()), LabelsIn(fn.body), {}, {})
    ensures Keeps(Fresh(), LowerBlock(fn.body, Fresh()), LabelsIn(fn.body))
  {
    hide Progress;
    FreshReady(fn);
    BlockShape(fn.body, Fresh());
    BlockKeeps(fn.body, Fresh(), LabelsIn(fn.body));
  }

  /** Every block of a lowered function ends with exactly one terminator, which
      nothing follows. */
  lemma EveryBlockSealed(fn: Fn)
    requires CheckedFn(fn)
    ensures forall i: nat :: i < |LowerFn(fn).blocks| ==> Sealed(LowerFn(fn).blocks[i].items)
  {
    hide Grows, MarkHit, Sealed;
    var b := LowerBlock(fn.body, Fresh());
    var b1 := LowerEnd(fn, b);
    BodyShape(fn);
    FreshReady(fn);
    if b.terminated {
    } else {
      ProgressFinish(Fresh(), b, LabelsIn(fn.body), {}, {}, Ret(if fn.isVoid then None else Some(Lit(0))));
    }
    assert b1.labels == b.labels;
    assert b1 == LowerFn(fn) && b1.terminated && Progress(Fresh(), b1, LabelsIn(fn.body), {}, {});
    forall i: nat | i < |b1.blocks| ensures Sealed(b1.blocks[i].items) {
      assert BlockOk(b1, i);
      assert !Pending(b1, i) by { NothingPending(fn, b1, i); }
    }
  }

  lemma NothingPending(fn: Fn, b1: Builder, i: nat)
    requires Progress(Fresh(), b1, LabelsIn(fn.body), {}, {}) && i < |b1.blocks|
    requires forall l :: l in b1.labels ==> l in LabelsIn(fn.body)
    ensures !Pending(b1, i)
  {
    hide Grows;
    if IsLabelBlock(b1, i) {
      var l :| l in b1.labels && b1.labels[l] == i;
      assert LabelStep(Fresh(), b1, LabelsIn(fn.body), l);
    } else {
      assert PlainStep(Fresh(), b1, {}, {}, i);
    }
  }
}
