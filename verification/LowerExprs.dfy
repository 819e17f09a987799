/** Lowered expressions: their shape, and that running them evaluates them. */
module LowerExprs {
  import opened Structured
  import opened BlockGraph
  import opened Lower
  import opened LowerShape

  // ------------------------------------------------------------------ shape

  lemma AheadSelf(b: Builder)
    requires BuilderOk(b) && !b.terminated
    ensures Ahead(b, b, {})
  {
    ProgressSelf(b);
  }

  lemma AheadTrans(b: Builder, b1: Builder, b2: Builder, extra: set<nat>)
    requires BuilderOk(b) && Ahead(b, b1, extra) && Ahead(b1, b2, {})
    ensures Ahead(b, b2, extra)
  {
    hide Progress;
    ProgressTrans(b, b1, b2, {}, {}, {}, {}, extra, {});
    assert forall s: set<nat> :: s + {} == s;
  }

  lemma AheadNew(b: Builder, b1: Builder, extra: set<nat>)
    requires BuilderOk(b) && Ahead(b, b1, extra)
    ensures Ahead(b, NewBlock(b1), extra + {|b1.blocks|}) && Ahead(b, NewJoin(b1), extra + {|b1.blocks|})
  {
    hide Progress;
    ProgressNew(b, b1, {}, {}, extra, Code([], []), b1.next);
    ProgressNew(b, b1, {}, {}, extra, Code([b1.next], []), b1.next + 1);
  }

  lemma AheadInst(b: Builder, b1: Builder, extra: set<nat>, item: Item)
    requires BuilderOk(b) && Ahead(b, b1, extra) && !item.Ends()
    ensures Ahead(b, Emit(b1.(next := b1.next + 1), item), extra)
  {
    hide Progress;
    ProgressInst(b, b1, {}, {}, extra, item);
  }

  lemma AheadEnd(b: Builder, b1: Builder, extra: set<nat>, term: Item, bb: nat)
    requires BuilderOk(b) && Ahead(b, b1, extra) && term.Ends() && bb in extra
    ensures Ahead(b, EndWith(b1, term, bb), extra - {bb})
  {
    hide Progress;
    ProgressBegin(b, b1, {}, {}, extra, term, bb);
  }

  predicate RefOk(r: Ref, n: nat) {
    r.Reg? ==> r.v < n
  }

  predicate RefsOk(rs: seq<Ref>, n: nat) {
    forall i :: 0 <= i < |rs| ==> RefOk(rs[i], n)
  }

  lemma {:induction false} ExprShape(e: Expr, b: Builder)
    requires BuilderOk(b) && !b.terminated
    ensures Ahead(b, LowerExpr(e, b).1, {}) && RefOk(LowerExpr(e, b).0, LowerExpr(e, b).1.next)
    decreases e, 1
  {
    hide BuilderOk, Ahead, Emit, EndWith, NewJoin;
    match e
    case Const(_) => AheadSelf(b);
    case Op(op, args) =>
      ArgsShape(args, b);
      var (rs, b1) := LowerArgs(args, b);
      AheadInst(b, b1, {}, Prim(b1.next, op, rs));
      NextAfter(b1, Prim(b1.next, op, rs));
    case And(l, r) => LogicalShape(e, l, r, true, b);
    case Or(l, r) => LogicalShape(e, l, r, false, b);
    case Ternary(c, t, f) => TernaryShape(e, c, t, f, b);
    case Comma(first, second) =>
      EffectShape(first, b);
      var b1 := LowerEffect(first, b);
      StillOk(b, b1, {});
      ExprShape(second, b1);
      AheadTrans(b, b1, LowerExpr(second, b1).1, {});
  }

  lemma NextAfter(b: Builder, item: Item)
    ensures Emit(b.(next := b.next + 1), item).next == b.next + 1
  { }

  lemma StillOk(b: Builder, b1: Builder, extra: set<nat>)
    requires Ahead(b, b1, extra)
    ensures BuilderOk(b1) && !b1.terminated && b.next <= b1.next
  { }

  lemma {:induction false} TruthShape(e: Expr, b: Builder)
    requires BuilderOk(b) && !b.terminated
    ensures Ahead(b, LowerTruth(e, b).1, {}) && RefOk(LowerTruth(e, b).0, LowerTruth(e, b).1.next)
    decreases e, 2
  {
    hide BuilderOk, Ahead, Emit;
    ExprShape(e, b);
    var (v, b1) := LowerExpr(e, b);
    AheadInst(b, b1, {}, NotZero(b1.next, v));
    NextAfter(b1, NotZero(b1.next, v));
  }

  lemma {:induction false} ArgsShape(es: Exprs, b: Builder)
    requires BuilderOk(b) && !b.terminated
    ensures Ahead(b, LowerArgs(es, b).1, {}) && RefsOk(LowerArgs(es, b).0, LowerArgs(es, b).1.next)
    decreases es, 1
  {
    hide BuilderOk, Ahead;
    match es
    case NoExprs => AheadSelf(b);
    case MoreExprs(e, rest) =>
      ExprShape(e, b);
      var (r, b1) := LowerExpr(e, b);
      StillOk(b, b1, {});
      ArgsShape(rest, b1);
      var (rs, b2) := LowerArgs(rest, b1);
      AheadTrans(b, b1, b2, {});
      StillOk(b1, b2, {});
  }

  lemma {:induction false} ForkLogicalShape(e: Expr, l: Expr, isAnd: bool, b: Builder)
    requires BuilderOk(b) && !b.terminated && l < e
    ensures var (b1, n) := ForkLogical(e, l, isAnd, b); Ahead(b, b1, {n + 1})
    decreases l, 3
  {
    hide BuilderOk, Ahead, NewJoin, EndWith;
    TruthShape(l, b);
    var (lv, b1) := LowerTruth(l, b);
    var n := |b1.blocks|;
    AheadNew(b, b1, {});
    AheadNew(b, NewBlock(b1), {} + {n});
    var term := if isAnd then CondBr(lv, n, [], n + 1, [Lit(0)]) else CondBr(lv, n + 1, [Lit(1)], n, []);
    AheadEnd(b, NewJoin(NewBlock(b1)), {} + {n} + {n + 1}, term, n);
    assert {} + {n} + {n + 1} - {n} == {n + 1};
  }

  lemma {:induction false} LogicalShape(e: Expr, l: Expr, r: Expr, isAnd: bool, b: Builder)
    requires BuilderOk(b) && !b.terminated && l < e && r < e
    ensures var (v, b') := LowerLogical(e, l, r, isAnd, b); Ahead(b, b', {}) && RefOk(v, b'.next)
    decreases e, 0
  {
    hide BuilderOk, Ahead, Emit, EndWith, ForkLogical;
    ForkLogicalShape(e, l, isAnd, b);
    var (b1, n) := ForkLogical(e, l, isAnd, b);
    StillOk(b, b1, {n + 1});
    TruthShape(r, b1);
    var (rv, b2) := LowerTruth(r, b1);
    AheadTrans(b, b1, b2, {n + 1});
    AheadEnd(b, b2, {n + 1}, Br(n + 1, [rv]), n + 1);
    assert {n + 1} - {n + 1} == {};
    var b3 := EndWith(b2, Br(n + 1, [rv]), n + 1);
    var item := Extend(b3.next, Reg(JoinValue(b3, n + 1)));
    AheadInst(b, b3, {}, item);
    NextAfter(b3, item);
  }

  lemma {:induction false} ForkTernaryShape(e: Expr, c: Expr, b: Builder)
    requires BuilderOk(b) && !b.terminated && c < e
    ensures var (b1, n) := ForkTernary(e, c, b); Ahead(b, b1, {n + 1, n + 2})
    decreases c, 3
  {
    hide BuilderOk, Ahead, NewJoin, NewBlock, EndWith;
    TruthShape(c, b);
    var (cv, b1) := LowerTruth(c, b);
    NewTwo(b, b1);
    var n := |b1.blocks|;
    AheadNew(b, NewBlocks(b1, 2), {n, n + 1});
    AheadEnd(b, NewJoin(NewBlocks(b1, 2)), {n, n + 1} + {n + 2}, CondBr(cv, n, [], n + 1, []), n);
    assert {n, n + 1} + {n + 2} - {n} == {n + 1, n + 2};
  }

  lemma NewTwo(b: Builder, b1: Builder)
    requires BuilderOk(b) && Ahead(b, b1, {})
    ensures |NewBlocks(b1, 2).blocks| == |b1.blocks| + 2
    ensures Ahead(b, NewBlocks(b1, 2), {|b1.blocks|, |b1.blocks| + 1})
  {
    hide Ahead, BuilderOk;
    AheadNew(b, b1, {});
    AheadNew(b, NewBlock(b1), {} + {|b1.blocks|});
    assert {} + {|b1.blocks|} + {|b1.blocks| + 1} == {|b1.blocks|, |b1.blocks| + 1};
    assert NewBlocks(b1, 2) == NewBlock(NewBlock(b1));
  }

  lemma NewThree(b: Builder, b1: Builder)
    requires BuilderOk(b) && Ahead(b, b1, {})
    ensures |NewBlocks(b1, 3).blocks| == |b1.blocks| + 3
    ensures Ahead(b, NewBlocks(b1, 3), {|b1.blocks|, |b1.blocks| + 1, |b1.blocks| + 2})
  {
    hide Ahead, BuilderOk;
    NewTwo(b, b1);
    var n := |b1.blocks|;
    AheadNew(b, NewBlocks(b1, 2), {n, n + 1});
    assert {n, n + 1} + {n + 2} == {n, n + 1, n + 2};
  }

  /** The join block a conditional makes, and its parameter. */
  ghost predicate JoinIs(b: Builder, bb: nat, p: nat) {
    bb < |b.blocks| && b.blocks[bb].params == [p] && p < b.next
  }

  lemma JoinKept(b: Builder, b1: Builder, bb: nat, p: nat)
    requires JoinIs(b, bb, p) && Grows(b, b1)
    ensures JoinIs(b1, bb, p)
  {
    assert CodeGrows(b.blocks[bb], b1.blocks[bb]);
  }

  lemma EmitGrows(b: Builder, item: Item, bb: nat)
    ensures Grows(b, Emit(b, item)) && Grows(b, EndWith(b, item, bb))
  { }

  lemma AheadGrows(b: Builder, b1: Builder, extra: set<nat>)
    requires Ahead(b, b1, extra)
    ensures Grows(b, b1)
  { }

  lemma ForkTernaryJoin(e: Expr, c: Expr, b: Builder)
    requires c < e && Grows(b, LowerTruth(c, b).1) && LowerTruth(c, b).1.cur < |LowerTruth(c, b).1.blocks|
    ensures var (b1, n) := ForkTernary(e, c, b); JoinIs(b1, n + 2, b1.next - 1) && b1.next - 1 >= b.next
  { }

  lemma {:induction false} TernaryShape(e: Expr, c: Expr, t: Expr, f: Expr, b: Builder)
    requires BuilderOk(b) && !b.terminated && e == Ternary(c, t, f)
    ensures Ahead(b, LowerExpr(e, b).1, {}) && RefOk(LowerExpr(e, b).0, LowerExpr(e, b).1.next)
    decreases e, 0
  {
    hide BuilderOk, Ahead, EndWith, ForkTernary;
    ForkTernaryShape(e, c, b);
    var (b1, n) := ForkTernary(e, c, b);
    StillOk(b, b1, {n + 1, n + 2});
    ExprShape(t, b1);
    var (tv, b2) := LowerExpr(t, b1);
    AheadTrans(b, b1, b2, {n + 1, n + 2});
    AheadEnd(b, b2, {n + 1, n + 2}, Br(n + 2, [tv]), n + 1);
    assert {n + 1, n + 2} - {n + 1} == {n + 2};
    var b3 := EndWith(b2, Br(n + 2, [tv]), n + 1);
    StillOk(b, b3, {n + 2});
    ExprShape(f, b3);
    var (fv, b4) := LowerExpr(f, b3);
    AheadTrans(b, b3, b4, {n + 2});
    AheadEnd(b, b4, {n + 2}, Br(n + 2, [fv]), n + 2);
    assert {n + 2} - {n + 2} == {};
    TruthShape(c, b);
    AheadGrows(b, LowerTruth(c, b).1, {});
    StillOk(b, LowerTruth(c, b).1, {});
    assert LowerTruth(c, b).1.cur < |LowerTruth(c, b).1.blocks| by { CurInRange(LowerTruth(c, b).1); }
    AheadGrows(b1, b2, {});
    AheadGrows(b3, b4, {});
    TernaryJoin(e, c, t, f, b);
    JoinValueIs(LowerExpr(e, b).1, n + 2, b1.next - 1);
  }

  lemma CurInRange(b: Builder)
    requires BuilderOk(b)
    ensures b.cur < |b.blocks|
  { }

  /** The join's parameter is the value of the whole conditional. */
  lemma TernaryJoin(e: Expr, c: Expr, t: Expr, f: Expr, b: Builder)
    requires e == Ternary(c, t, f)
    requires Grows(b, LowerTruth(c, b).1) && LowerTruth(c, b).1.cur < |LowerTruth(c, b).1.blocks|
    requires var (b1, n) := ForkTernary(e, c, b);
             var (tv, b2) := LowerExpr(t, b1);
             var b3 := EndWith(b2, Br(n + 2, [tv]), n + 1);
             Grows(b1, b2) && Grows(b3, LowerExpr(f, b3).1)
    ensures var (b1, n) := ForkTernary(e, c, b);
            var b' := LowerExpr(e, b).1;
            LowerExpr(e, b).0 == Reg(b1.next - 1) && JoinIs(b', n + 2, b1.next - 1) && b1.next - 1 >= b.next
  {
    hide BuilderOk, Ahead, ForkTernary, JoinIs, Grows, EndWith, LowerTruth, LowerExpr, JoinValue;
    ForkTernaryJoin(e, c, b);
    TernaryCode(e, c, t, f, b);
    var (b1, n) := ForkTernary(e, c, b);
    var (tv, b2) := LowerExpr(t, b1);
    var b3 := EndWith(b2, Br(n + 2, [tv]), n + 1);
    var (fv, b4) := LowerExpr(f, b3);
    EmitGrows(b2, Br(n + 2, [tv]), n + 1);
    EmitGrows(b4, Br(n + 2, [fv]), n + 2);
    JoinKept(b1, b2, n + 2, b1.next - 1);
    JoinKept(b2, b3, n + 2, b1.next - 1);
    JoinKept(b3, b4, n + 2, b1.next - 1);
    var b5 := EndWith(b4, Br(n + 2, [fv]), n + 2);
    JoinKept(b4, b5, n + 2, b1.next - 1);
    JoinValueIs(b4, n + 2, b1.next - 1);
  }

  /** The code of a conditional, arm by arm. */
  lemma TernaryCode(e: Expr, c: Expr, t: Expr, f: Expr, b: Builder)
    requires e == Ternary(c, t, f)
    ensures var (b1, n) := ForkTernary(e, c, b);
            var (tv, b2) := LowerExpr(t, b1);
            var (fv, b4) := LowerExpr(f, EndWith(b2, Br(n + 2, [tv]), n + 1));
            LowerExpr(e, b) == (Reg(JoinValue(b4, n + 2)), EndWith(b4, Br(n + 2, [fv]), n + 2))
  {
    hide ForkTernary, EndWith, JoinValue;
  }

  lemma JoinValueIs(b: Builder, bb: nat, p: nat)
    requires JoinIs(b, bb, p)
    ensures JoinValue(b, bb) == p && p < b.next
  { }

  lemma {:induction false} ForkEffectShape(e: Expr, c: Expr, b: Builder)
    requires BuilderOk(b) && !b.terminated && c < e
    ensures var (b1, n) := ForkEffect(e, c, b); Ahead(b, b1, {n + 1, n + 2})
    decreases c, 3
  {
    hide BuilderOk, Ahead, EndWith;
    TruthShape(c, b);
    var (cv, b1) := LowerTruth(c, b);
    NewThree(b, b1);
    var n := |b1.blocks|;
    AheadEnd(b, NewBlocks(b1, 3), {n, n + 1, n + 2}, CondBr(cv, n, [], n + 1, []), n);
    assert {n, n + 1, n + 2} - {n} == {n + 1, n + 2};
  }

  lemma {:induction false} EffectShape(e: Expr, b: Builder)
    requires BuilderOk(b) && !b.terminated
    ensures Ahead(b, LowerEffect(e, b), {})
    decreases e, 2
  {
    hide BuilderOk, Ahead, EndWith, ForkEffect;
    match e
    case Comma(first, second) =>
      EffectShape(first, b);
      var b1 := LowerEffect(first, b);
      StillOk(b, b1, {});
      EffectShape(second, b1);
      AheadTrans(b, b1, LowerEffect(second, b1), {});
    case Ternary(c, t, f) =>
      ForkEffectShape(e, c, b);
      var (b1, n) := ForkEffect(e, c, b);
      StillOk(b, b1, {n + 1, n + 2});
      EffectShape(t, b1);
      var b2 := LowerEffect(t, b1);
      AheadTrans(b, b1, b2, {n + 1, n + 2});
      AheadEnd(b, b2, {n + 1, n + 2}, Br(n + 2, []), n + 1);
      assert {n + 1, n + 2} - {n + 1} == {n + 2};
      var b3 := EndWith(b2, Br(n + 2, []), n + 1);
      StillOk(b, b3, {n + 2});
      EffectShape(f, b3);
      var b4 := LowerEffect(f, b3);
      AheadTrans(b, b3, b4, {n + 2});
      AheadEnd(b, b4, {n + 2}, Br(n + 2, []), n + 2);
      assert {n + 2} - {n + 2} == {};
    case _ => ExprShape(e, b);
  }
}
