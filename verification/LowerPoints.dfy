/** Where the parts of a compound statement begin and end in the blocks. */
module LowerPoints {
  import opened Wrappers
  import opened Structured
  import opened BlockGraph
  import opened Lower
  import opened LowerShape
  import opened LowerExprs
  import opened LowerStmts
  import opened LowerRuns
  import opened LowerSealed

  // ------------------------------------------------------------------ growth

  lemma LeaveGrows(b: Builder, target: nat, bb: nat)
    ensures Grows(b, Leave(b, target, bb))
  { }

  lemma UnstackGrows(s: Stmt, b: Builder)
    ensures Grows(b, Unstack(s, b))
  { }

  lemma CloseGrows(s: Stmt, b: Builder, b1: Builder, ls: set<nat>, ms: set<nat>)
    requires Compound(s) && BuilderOk(b) && Progress(b, Unstack(s, b1), ls, ms, Left(s, LastPart(s), b))
    ensures Grows(b1, Close(s, b, b1))
    ensures var bb := if s.DoWhile? || s.For? then Again(s, b) else End(s, b);
            var t := if s.While? || s.DoWhile? || s.For? then Again(s, b) else End(s, b);
            Grows(Leave(Unstack(s, b1), t, bb), Close(s, b, b1))
  {
    hide BuilderOk, Progress, Ahead, Emit, Base, Grows, Leave;
    var n := Base(s, b);
    var b2 := Unstack(s, b1);
    UnstackGrows(s, b1);
    var bb := if s.DoWhile? || s.For? then Again(s, b) else End(s, b);
    var t := if s.While? || s.DoWhile? || s.For? then Again(s, b) else End(s, b);
    var b3 := Leave(b2, t, bb);
    LeaveGrows(b2, t, bb);
    GrowsTrans(b1, b2, b3);
    if s.DoWhile? {
      ProgressBegin(b, b2, ls, ms, {n + 1, n + 2}, Br(n + 1, []), n + 1);
      ProgressOk(b, b3, ls, ms, {n + 1, n + 2} - {n + 1}) by { LeaveIs(b2, n + 1); }
      TruthShape(s.cond, b3) by { LeaveIs(b2, n + 1); }
      var (cv, b4) := LowerTruth(s.cond, b3);
      AheadGrows(b3, b4, {});
      EmitGrows(b4, CondBr(cv, n, [], n + 2, []), n + 2);
      GrowsTrans(b3, b4, Close(s, b, b1));
    } else if s.For? {
      ProgressBegin(b, b2, ls, ms, {n + 2, n + 3}, Br(n + 2, []), n + 2);
      ProgressOk(b, b3, ls, ms, {n + 2, n + 3} - {n + 2}) by { LeaveIs(b2, n + 2); }
      var b4 := if s.step.Some? then LowerEffect(s.step.value, b3) else b3;
      if s.step.Some? { EffectShape(s.step.value, b3) by { LeaveIs(b2, n + 2); } AheadGrows(b3, b4, {}); } else { GrowsSelf(b3); }
      EmitGrows(b4, Br(n, []), n + 3);
      GrowsTrans(b3, b4, Close(s, b, b1));
    } else {
      GrowsSelf(b3);
    }
    GrowsTrans(b1, b3, Close(s, b, b1));
  }

  lemma LeaveIs(b: Builder, bb: nat)
    ensures Leave(b, bb, bb) == SwitchTo(if b.terminated then b else Emit(b, Br(bb, [])), bb)
    ensures !Leave(b, bb, bb).terminated
  { }

  lemma GrowsSelf(b: Builder)
    ensures Grows(b, b)
  { }

  lemma {:induction false} InPartGrows(s: Stmt, b: Builder)
    requires Ready(s, b) && !b.terminated && Compound(s)
    ensures Grows(InPart(s, LastPart(s), b), LowerLive(s, b))
    ensures s.If? && s.els.Some? ==> Grows(InPart(s, 0, b), Open(s, 1, b))
  {
    hide Ready, Progress, Grows, Left, Close, InPart, BuilderOk, Open;
    ReadyOk(s, b);
    LastPartShape(s, b);
    CloseGrows(s, b, InPart(s, LastPart(s), b), Labels(s), Marks(s));
    CompoundCloses(s, b);
    if s.If? && s.els.Some? {
      ElseOpens(s, b);
      LeaveGrows(InPart(s, 0, b), Base(s, b) + 1, Base(s, b) + 2);
    }
  }

  lemma ElseOpens(s: Stmt, b: Builder)
    requires s.If? && s.els.Some?
    ensures Open(s, 1, b) == Leave(InPart(s, 0, b), Base(s, b) + 1, Base(s, b) + 2)
  { }

  lemma PartOpens(s: Stmt, part: nat, b: Builder)
    requires Ready(s, b) && !b.terminated && HasPart(s, part)
    ensures Ready(Part(s, part), Open(s, part, b))
    ensures InPart(s, part, b) == LowerStmt(Part(s, part), Open(s, part, b))
    ensures Progress(Open(s, part, b), InPart(s, part, b), Labels(Part(s, part)), Marks(Part(s, part)), {})
  {
    hide Ready, Progress, LowerStmt, Open;
    if s.Switch? { SwitchOpenReady(s, b); } else { OpenShape(s, part, b); }
    StmtShape(Part(s, part), Open(s, part, b));
  }

  lemma PartGrows(s: Stmt, part: nat, b: Builder)
    requires Ready(s, b) && !b.terminated && HasPart(s, part)
    ensures Grows(InPart(s, part, b), LowerLive(s, b)) && Grows(Open(s, part, b), LowerLive(s, b))
  {
    hide Ready, Progress, Grows, LowerStmt, LowerLive, Open, InPart, BuilderOk;
    InPartGrows(s, b);
    PartOpens(s, part, b);
    ProgressOk(Open(s, part, b), InPart(s, part, b), Labels(Part(s, part)), Marks(Part(s, part)), {});
    if part != LastPart(s) {
      if s.If? {
        PartOpens(s, 1, b);
        ProgressOk(Open(s, 1, b), InPart(s, 1, b), Labels(Part(s, 1)), Marks(Part(s, 1)), {});
        GrowsTrans(Open(s, 1, b), InPart(s, 1, b), LowerLive(s, b));
        GrowsTrans(InPart(s, 0, b), Open(s, 1, b), LowerLive(s, b));
      } else {
        ForInitGrows(s, b);
        PartOpens(s, 1, b);
        ProgressOk(Open(s, 1, b), InPart(s, 1, b), Labels(Part(s, 1)), Marks(Part(s, 1)), {});
        GrowsTrans(Open(s, 1, b), InPart(s, 1, b), LowerLive(s, b));
        GrowsTrans(InPart(s, 0, b), Open(s, 1, b), LowerLive(s, b));
      }
    }
    GrowsTrans(Open(s, part, b), InPart(s, part, b), LowerLive(s, b));
  }

  /** The clause of a `for` comes before its head. */
  lemma ForInitGrows(s: Stmt, b: Builder)
    requires s.For? && Ready(s, b) && !b.terminated
    ensures var b1 := if s.init.Some? then InPart(s, 0, b) else b;
            Grows(NewBlocks(b1, 4), Open(s, 1, b)) && Grows(b1, Open(s, 1, b)) && BuilderOk(b1) && !b1.terminated
            && Base(s, b) == |b1.blocks|
            && Grows(EndWith(NewBlocks(b1, 4), Br(Base(s, b), []), Base(s, b)), Open(s, 1, b))
  {
    hide Ready, Progress, Grows, LowerStmt, ForHead, BuilderOk, Ahead, Emit;
    ForInitShape(s, b);
    var b1 := if s.init.Some? then LowerStmt(s.init.value, b) else b;
    var n := |b1.blocks|;
    ProgressOk(b, b1, LabelsBefore(s, 1), MarksBefore(s, 1), {});
    var b2 := EndWith(NewBlocks(b1, 4), Br(n, []), n);
    ForHeadGrows(s.test, b1);
    var b3 := ForHead(s.test, n, b2);
    AddedGrows(b1, 4);
    EmitGrows(NewBlocks(b1, 4), Br(n, []), n);
    ForOpens(s, b);
    StackedGrow(b2, b3, Open(s, 1, b));
    GrowsTrans(NewBlocks(b1, 4), b2, Open(s, 1, b));
    GrowsTrans(b1, NewBlocks(b1, 4), Open(s, 1, b));
  }

  lemma AddedGrows(b: Builder, count: nat)
    ensures Grows(b, NewBlocks(b, count))
  { }

  lemma ForHeadGrows(test: Option<Expr>, b1: Builder)
    requires BuilderOk(b1) && !b1.terminated
    ensures var n := |b1.blocks|; var b2 := EndWith(NewBlocks(b1, 4), Br(n, []), n);
            Grows(b2, ForHead(test, n, b2)) && BuilderOk(b2) && !b2.terminated
  {
    hide Grows, BuilderOk, Ahead, Emit;
    var n := |b1.blocks|;
    AheadSelf(b1);
    NewThree(b1, b1);
    AheadNew(b1, NewBlocks(b1, 3), {n, n + 1, n + 2});
    AheadEnd(b1, NewBlocks(b1, 4), {n, n + 1, n + 2} + {n + 3}, Br(n, []), n);
    var b2 := EndWith(NewBlocks(b1, 4), Br(n, []), n);
    StillOk(b1, b2, {n, n + 1, n + 2} + {n + 3} - {n});
    match test
    case None => EmitGrows(b2, Br(n + 1, []), n + 1);
    case Some(c) =>
      TruthShape(c, b2);
      var (cv, b3) := LowerTruth(c, b2);
      AheadGrows(b2, b3, {});
      EmitGrows(b3, CondBr(cv, n + 1, [], n + 3, []), n + 1);
      GrowsTrans(b2, b3, ForHead(test, n, b2));
  }

  // --------------------------------------------------------------- beginnings

  /** The builder is at the beginning of block `bb`. */
  predicate StartsAt(b: Builder, bb: nat) {
    b.cur == bb < |b.blocks| && b.blocks[bb].items == [] && !b.terminated
  }

  lemma StartHere(b: Builder, bb: nat, env: map<nat, int>, w: World)
    requires StartsAt(b, bb)
    ensures Here(b, env, w) == At(bb, 0, env, w)
  { }

  lemma BeginAt(b: Builder, b1: Builder, ls: set<nat>, ms: set<nat>, extra: set<nat>, term: Item, bb: nat)
    requires BuilderOk(b) && Progress(b, b1, ls, ms, extra) && bb in extra
    ensures StartsAt(SwitchTo(if b1.terminated then b1 else Emit(b1, term), bb), bb)
  {
    assert PlainStep(b, b1, ms, extra, bb);
  }

  lemma BeginAhead(b: Builder, b1: Builder, extra: set<nat>, term: Item, bb: nat)
    requires BuilderOk(b) && Ahead(b, b1, extra) && bb in extra
    ensures StartsAt(EndWith(b1, term, bb), bb)
  {
    BeginAt(b, b1, {}, {}, extra, term, bb);
  }

  /** Where a statement is closed, control goes on in a block just begun. */
  lemma EndStarts(s: Stmt, b: Builder)
    requires Ready(s, b) && !b.terminated && Compound(s)
    ensures StartsAt(LowerLive(s, b), End(s, b))
    ensures s.DoWhile? || s.For? ==>
              StartsAt(Leave(Unstack(s, InPart(s, LastPart(s), b)), Again(s, b), Again(s, b)), Again(s, b))
  {
    hide Ready, Progress, Ahead, Emit, Base, InPart, BuilderOk;
    ReadyOk(s, b);
    LastPartShape(s, b);
    CompoundCloses(s, b);
    var n := Base(s, b);
    var b2 := Unstack(s, InPart(s, LastPart(s), b));
    var ls, ms := Labels(s), Marks(s);
    match s
    case If(_, _, _) => BeginAt(b, b2, ls, ms, {n + 1}, Br(n + 1, []), n + 1);
    case While(_, _) => BeginAt(b, b2, ls, ms, {n + 2}, Br(n, []), n + 2);
    case DoWhile(_, c) => DoEnds(b, b2, c, ls, ms, n);
    case For(_, _, step, _) => ForEnds(b, b2, step, ls, ms, n);
    case Switch(_, _, _, marks, _) => BeginAt(b, b2, ls, ms, {n + marks}, Br(n + marks, []), n + marks);
    case _ =>
  }

  lemma DoEnds(b: Builder, b2: Builder, c: Expr, ls: set<nat>, ms: set<nat>, n: nat)
    requires BuilderOk(b) && Progress(b, b2, ls, ms, {n + 1, n + 2})
    ensures var b3 := Leave(b2, n + 1, n + 1); var (cv, b4) := LowerTruth(c, b3);
            StartsAt(b3, n + 1) && StartsAt(EndWith(b4, CondBr(cv, n, [], n + 2, []), n + 2), n + 2)
  {
    hide BuilderOk, Progress, Emit, Ahead, LowerTruth, StartsAt, EndWith;
    BeginAt(b, b2, ls, ms, {n + 1, n + 2}, Br(n + 1, []), n + 1);
    ProgressBegin(b, b2, ls, ms, {n + 1, n + 2}, Br(n + 1, []), n + 1);
    assert {n + 1, n + 2} - {n + 1} == {n + 2};
    var b3 := Leave(b2, n + 1, n + 1);
    ProgressOk(b, b3, ls, ms, {n + 2});
    TruthShape(c, b3);
    var (cv, b4) := LowerTruth(c, b3);
    EndBegins(b, b3, b4, ls, ms, n + 2, CondBr(cv, n, [], n + 2, []));
  }

  lemma ForEnds(b: Builder, b2: Builder, step: Option<Expr>, ls: set<nat>, ms: set<nat>, n: nat)
    requires BuilderOk(b) && Progress(b, b2, ls, ms, {n + 2, n + 3})
    ensures var b3 := Leave(b2, n + 2, n + 2); var b4 := if step.Some? then LowerEffect(step.value, b3) else b3;
            StartsAt(b3, n + 2) && StartsAt(EndWith(b4, Br(n, []), n + 3), n + 3)
  {
    hide BuilderOk, Progress, Emit, Ahead, LowerEffect, StartsAt, EndWith;
    BeginAt(b, b2, ls, ms, {n + 2, n + 3}, Br(n + 2, []), n + 2);
    ProgressBegin(b, b2, ls, ms, {n + 2, n + 3}, Br(n + 2, []), n + 2);
    assert {n + 2, n + 3} - {n + 2} == {n + 3};
    var b3 := Leave(b2, n + 2, n + 2);
    ProgressOk(b, b3, ls, ms, {n + 3});
    if step.Some? { EffectShape(step.value, b3); } else { AheadSelf(b3); }
    EndBegins(b, b3, if step.Some? then LowerEffect(step.value, b3) else b3, ls, ms, n + 3, Br(n, []));
  }

  lemma EndBegins(b: Builder, b3: Builder, b4: Builder, ls: set<nat>, ms: set<nat>, exit: nat, term: Item)
    requires BuilderOk(b) && Progress(b, b3, ls, ms, {exit}) && Ahead(b3, b4, {}) && term.Ends()
    ensures StartsAt(EndWith(b4, term, exit), exit)
  {
    hide BuilderOk, Progress, Emit;
    AheadProgress(b3, b4, {});
    Then(b, b3, b4, ls, ms, {}, {}, {exit}, ls, ms);
    BeginAt(b, b4, ls, ms, {exit}, term, exit);
    assert !b4.terminated;
  }

  /** The block a part is lowered from. */
  function Entry(s: Stmt, part: nat, b: Builder): nat {
    Base(s, b) + (if s.If? then 2 * part else if s.DoWhile? then 0 else 1)
  }

  lemma IfStarts(s: Stmt, part: nat, b: Builder)
    requires Ready(s, b) && !b.terminated && HasPart(s, part) && s.If?
    ensures StartsAt(Open(s, part, b), Entry(s, part, b))
  {
    hide Ready, Progress, Ahead, Emit, InPart, BuilderOk, Grows, LowerTruth;
    ReadyOk(s, b);
    AheadSelf(b);
    if part == 0 {
      TruthShape(s.cond, b);
      var (cv, b1) := LowerTruth(s.cond, b);
      var n := |b1.blocks|;
      NewTwo(b, b1);
      NewThree(b, b1);
      if s.els.Some? {
        BeginAhead(b, NewBlocks(b1, 3), {n, n + 1, n + 2}, CondBr(cv, n, [], n + 2, []), n);
      } else {
        BeginAhead(b, NewBlocks(b1, 2), {n, n + 1}, CondBr(cv, n, [], n + 1, []), n);
      }
    } else {
      InPartShape(s, 0, b);
      ElseOpens(s, b);
      var n := Base(s, b);
      BeginAt(b, InPart(s, 0, b), Labels(Part(s, 0)), Marks(Part(s, 0)), {n + 1, n + 2}, Br(n + 1, []), n + 2);
    }
  }

  lemma WhileBodyStarts(s: Stmt, b: Builder)
    requires Ready(s, b) && !b.terminated && s.While?
    ensures StartsAt(Open(s, 0, b), Entry(s, 0, b))
  {
    hide Ready, StartsAt, Open, BuilderOk, Grows, EndWith;
    ReadyOk(s, b);
    WhileStarts(s, b);
  }

  lemma DoStarts(s: Stmt, b: Builder)
    requires Ready(s, b) && !b.terminated && s.DoWhile?
    ensures StartsAt(Open(s, 0, b), Entry(s, 0, b))
  {
    hide Ready, Progress, Ahead, Emit, BuilderOk, Grows;
    ReadyOk(s, b);
    AheadSelf(b);
    var n := |b.blocks|;
    NewThree(b, b);
    BeginAhead(b, NewBlocks(b, 3), {n, n + 1, n + 2}, Br(n, []), n);
  }

  lemma ForBodyStarts(s: Stmt, b: Builder)
    requires Ready(s, b) && !b.terminated && s.For?
    ensures StartsAt(Open(s, 1, b), Entry(s, 1, b))
  {
    hide Ready, BuilderOk, InPart, EndWith, NewBlocks, ForHead, Base, Open;
    ForInitGrows(s, b);
    ForStarts(s.test, if s.init.Some? then InPart(s, 0, b) else b);
    ForOpens(s, b);
  }

  lemma OpenStarts(s: Stmt, part: nat, b: Builder)
    requires Ready(s, b) && !b.terminated && HasPart(s, part) && !s.Switch? && !(s.For? && part == 0)
    ensures StartsAt(Open(s, part, b), Entry(s, part, b))
  {
    hide Ready, StartsAt, Open, Entry;
    match s
    case If(_, _, _) => IfStarts(s, part, b);
    case While(_, _) => WhileBodyStarts(s, b);
    case DoWhile(_, _) => DoStarts(s, b);
    case For(_, _, _, _) => ForBodyStarts(s, b);
    case Switch(_, _, _, _, _) =>
  }

  lemma WhileStarts(s: Stmt, b: Builder)
    requires s.While? && BuilderOk(b) && !b.terminated
    ensures var n := |b.blocks|; var b2 := EndWith(NewBlocks(b, 3), Br(n, []), n);
            StartsAt(b2, n) && BuilderOk(b2) && StartsAt(Open(s, 0, b), n + 1)
            && Grows(NewBlocks(b, 3), b2) && Grows(b2, Open(s, 0, b))
  {
    hide BuilderOk, Ahead, Emit, Grows, LowerTruth;
    var n := |b.blocks|;
    AheadSelf(b);
    NewThree(b, b);
    BeginAhead(b, NewBlocks(b, 3), {n, n + 1, n + 2}, Br(n, []), n);
    AheadEnd(b, NewBlocks(b, 3), {n, n + 1, n + 2}, Br(n, []), n);
    var b2 := EndWith(NewBlocks(b, 3), Br(n, []), n);
    EmitGrows(NewBlocks(b, 3), Br(n, []), n);
    var left := {n, n + 1, n + 2} - {n};
    StillOk(b, b2, left);
    TruthShape(s.cond, b2);
    var (cv, b3) := LowerTruth(s.cond, b2);
    AheadTrans(b, b2, b3, left);
    var term := CondBr(cv, n + 1, [], n + 2, []);
    BeginAhead(b, b3, left, term, n + 1);
    AheadGrows(b2, b3, {});
    EmitGrows(b3, term, n + 1);
    GrowsTrans(b2, b3, EndWith(b3, term, n + 1));
    StackedGrow(b2, EndWith(b3, term, n + 1), Open(s, 0, b));
  }

  lemma StackedGrow(b: Builder, b1: Builder, b2: Builder)
    requires Grows(b, b1) && b2.blocks == b1.blocks && b2.labels == b1.labels && b2.next == b1.next
    ensures Grows(b, b2)
  { }

  lemma ForStarts(test: Option<Expr>, b1: Builder)
    requires BuilderOk(b1) && !b1.terminated
    ensures var n := |b1.blocks|; var b2 := EndWith(NewBlocks(b1, 4), Br(n, []), n);
            StartsAt(b2, n) && BuilderOk(b2) && StartsAt(ForHead(test, n, b2), n + 1)
  {
    hide BuilderOk, Ahead, Emit, Grows, LowerTruth;
    var n := |b1.blocks|;
    AheadSelf(b1);
    NewThree(b1, b1);
    AheadNew(b1, NewBlocks(b1, 3), {n, n + 1, n + 2});
    var all := {n, n + 1, n + 2} + {n + 3};
    BeginAhead(b1, NewBlocks(b1, 4), all, Br(n, []), n);
    AheadEnd(b1, NewBlocks(b1, 4), all, Br(n, []), n);
    var b2 := EndWith(NewBlocks(b1, 4), Br(n, []), n);
    StillOk(b1, b2, all - {n});
    match test
    case None => BeginAhead(b1, b2, all - {n}, Br(n + 1, []), n + 1);
    case Some(c) =>
      TruthShape(c, b2);
      var (cv, b3) := LowerTruth(c, b2);
      AheadTrans(b1, b2, b3, all - {n});
      BeginAhead(b1, b3, all - {n}, CondBr(cv, n + 1, [], n + 3, []), n + 1);
  }

  lemma ForOpens(s: Stmt, b: Builder)
    requires s.For?
    ensures var b1 := if s.init.Some? then InPart(s, 0, b) else b; var n := |b1.blocks|;
            && n == Base(s, b)
            && Open(s, 1, b) == EnterLoop(ForHead(s.test, n, EndWith(NewBlocks(b1, 4), Br(n, []), n)), n + 2, n + 3)
  { }

  // ------------------------------------------------ blocks without parameters

  /** The blocks of a compound statement take no parameters. */
  function Width(s: Stmt): nat {
    match s
    case If(_, _, els) => if els.Some? then 3 else 2
    case For(_, _, _, _) => 4
    case Switch(_, _, _, marks, _) => marks + 1
    case _ => 3
  }

  lemma NewPlain(b: Builder, count: nat, b1: Builder)
    requires Grows(NewBlocks(b, count), b1)
    ensures forall i: nat :: |b.blocks| <= i < |b.blocks| + count ==> Plain(b1, i)
  {
    forall i: nat | |b.blocks| <= i < |b.blocks| + count ensures Plain(b1, i) {
      PlainKept(NewBlocks(b, count), b1, i);
    }
  }

  lemma IfPlainBlocks(s: Stmt, b: Builder, g: Builder)
    requires s.If? && Grows(Open(s, 0, b), g)
    ensures forall i: nat :: Base(s, b) <= i < Base(s, b) + Width(s) ==> Plain(g, i)
  {
    hide Emit, Grows, LowerTruth, Plain;
    var (cv, b1) := LowerTruth(s.cond, b);
    var n := |b1.blocks|;
    var b2 := NewBlocks(b1, Width(s));
    var term := CondBr(cv, n, [], if s.els.Some? then n + 2 else n + 1, []);
    EmitGrows(b2, term, n);
    GrowsTrans(b2, EndWith(b2, term, n), g);
    NewPlain(b1, Width(s), g);
  }

  lemma WhilePlainBlocks(s: Stmt, b: Builder, g: Builder)
    requires s.While? && BuilderOk(b) && !b.terminated && Grows(Open(s, 0, b), g)
    ensures forall i: nat :: Base(s, b) <= i < Base(s, b) + Width(s) ==> Plain(g, i)
  {
    hide BuilderOk, Emit, Grows, Open, Plain;
    WhileStarts(s, b);
    var n := |b.blocks|;
    GrowsTrans(NewBlocks(b, 3), EndWith(NewBlocks(b, 3), Br(n, []), n), Open(s, 0, b));
    GrowsTrans(NewBlocks(b, 3), Open(s, 0, b), g);
    NewPlain(b, 3, g);
  }

  lemma DoPlainBlocks(s: Stmt, b: Builder, g: Builder)
    requires s.DoWhile? && Grows(Open(s, 0, b), g)
    ensures forall i: nat :: Base(s, b) <= i < Base(s, b) + Width(s) ==> Plain(g, i)
  {
    hide Emit, Grows, Plain;
    var n := |b.blocks|;
    EmitGrows(NewBlocks(b, 3), Br(n, []), n);
    StackedGrow(NewBlocks(b, 3), EndWith(NewBlocks(b, 3), Br(n, []), n), Open(s, 0, b));
    GrowsTrans(NewBlocks(b, 3), Open(s, 0, b), g);
    NewPlain(b, 3, g);
  }

  lemma ForPlainBlocks(s: Stmt, b: Builder, g: Builder)
    requires s.For? && Ready(s, b) && !b.terminated && Grows(Open(s, 1, b), g)
    ensures forall i: nat :: Base(s, b) <= i < Base(s, b) + Width(s) ==> Plain(g, i)
  {
    hide Ready, BuilderOk, Emit, Grows, Open, Plain, InPart, Base;
    ForInitGrows(s, b);
    var b1 := if s.init.Some? then InPart(s, 0, b) else b;
    GrowsTrans(NewBlocks(b1, 4), Open(s, 1, b), g);
    NewPlain(b1, 4, g);
  }

  lemma BlocksPlain(s: Stmt, b: Builder, g: Builder)
    requires Ready(s, b) && !b.terminated && Compound(s) && Grows(LowerLive(s, b), g)
    ensures forall i: nat :: Base(s, b) <= i < Base(s, b) + Width(s) ==> Plain(g, i)
  {
    hide Ready, BuilderOk, Grows, LowerLive, Plain, Open, Base, Width;
    ReadyOk(s, b);
    PartGrows(s, if s.For? then 1 else 0, b);
    GrowsTrans(Open(s, if s.For? then 1 else 0, b), LowerLive(s, b), g);
    match s
    case If(_, _, _) => IfPlainBlocks(s, b, g);
    case While(_, _) => WhilePlainBlocks(s, b, g);
    case DoWhile(_, _) => DoPlainBlocks(s, b, g);
    case For(_, _, _, _) => ForPlainBlocks(s, b, g);
    case Switch(_, _, _, _, _) => SwitchPlainBlocks(s, b, g);
    case _ =>
  }

  lemma SwitchPlainBlocks(s: Stmt, b: Builder, g: Builder)
    requires s.Switch? && Grows(Open(s, 0, b), g)
    ensures forall i: nat :: Base(s, b) <= i < Base(s, b) + Width(s) ==> Plain(g, i)
  {
    hide Grows, Emit, LowerExpr;
    var (x, b1) := LowerExpr(s.scrutinee, b);
    var n := |b1.blocks|;
    var b2 := NewBlocks(b1, s.marks + 1);
    var term := SwitchBr(x, if s.default.Some? then n + s.default.value else n + s.marks, Cases(s.cases, n));
    EmitGrows(b2, term, n);
    EmitKeeps(b2, term);
    StackedGrow(b2, Emit(b2, term), Open(s, 0, b));
    GrowsTrans(b2, Open(s, 0, b), g);
    NewPlain(b1, s.marks + 1, g);
  }
}
