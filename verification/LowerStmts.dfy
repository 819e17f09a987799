/** The shape of lowered statements: labels and marks are placed once, and no
    block is left without its terminator. */
module LowerStmts {
  import opened Wrappers
  import opened Structured
  import opened BlockGraph
  import opened Lower
  import opened LowerShape
  import opened LowerExprs

  /** The builder is ready for `s`: its labels and marks are not yet placed. */
  ghost predicate Ready(s: Stmt, b: Builder) {
    BuilderOk(b) && Checked(s) && LabelsFree(b, Labels(s)) && MarksFree(b, Marks(s))
  }

  ghost predicate ReadyIn(ss: Stmts, b: Builder) {
    BuilderOk(b) && CheckedIn(ss) && LabelsFree(b, LabelsIn(ss)) && MarksFree(b, MarksIn(ss))
  }

  // --------------------------------------------------- more kinds of progress

  lemma ProgressOk(b: Builder, b1: Builder, ls: set<nat>, ms: set<nat>, extra: set<nat>)
    requires Progress(b, b1, ls, ms, extra)
    ensures BuilderOk(b1) && Grows(b, b1) && b1.marks == b.marks && |b.blocks| <= |b1.blocks| && b1.cur < |b1.blocks|
  { }

  lemma AheadProgress(b: Builder, b1: Builder, extra: set<nat>)
    requires Ahead(b, b1, extra)
    ensures Progress(b, b1, {}, {}, extra) && !b1.terminated
  { }

  lemma Then(b: Builder, b1: Builder, b2: Builder, ls: set<nat>, ms: set<nat>, ls2: set<nat>, ms2: set<nat>,
             extra: set<nat>, lsAll: set<nat>, msAll: set<nat>)
    requires BuilderOk(b) && Progress(b, b1, ls, ms, extra) && Progress(b1, b2, ls2, ms2, {})
    requires lsAll == ls + ls2 && msAll == ms + ms2
    ensures Progress(b, b2, lsAll, msAll, extra)
  {
    hide Progress, BuilderOk;
    ProgressTrans(b, b1, b2, ls, ms, ls2, ms2, extra, {});
    assert extra + {} == extra;
  }

  /** Progress does not depend on what `break` and `continue` refer to. */
  lemma ProgressStacks(b: Builder, b1: Builder, b2: Builder, ls: set<nat>, ms: set<nat>, extra: set<nat>)
    requires Progress(b, b1, ls, ms, extra) && b2 == b1.(breaks := b2.breaks, continues := b2.continues)
    ensures Progress(b, b2, ls, ms, extra)
  {
    hide MarkHit;
    SameBlocks(b1, b2);
    forall i: nat | i < |b2.blocks| && !IsLabelBlock(b2, i) ensures PlainStep(b, b2, ms, extra, i) {
      assert PlainStep(b, b1, ms, extra, i);
    }
    forall l | l in b2.labels ensures LabelStep(b, b2, ls, l) { assert LabelStep(b, b1, ls, l); }
  }

  lemma SameBlocks(b1: Builder, b2: Builder)
    requires BuilderOk(b1) && b2 == b1.(breaks := b2.breaks, continues := b2.continues)
    ensures BuilderOk(b2)
    ensures forall i: nat :: IsLabelBlock(b2, i) <==> IsLabelBlock(b1, i)
    ensures forall i: nat :: Pending(b2, i) <==> Pending(b1, i)
  {
    forall i: nat | i < |b2.blocks| ensures BlockOk(b2, i) { assert BlockOk(b1, i); }
    forall j | 0 <= j < |b2.marks| ensures MarksOk(b2, b2.marks[j]) { assert MarksOk(b1, b1.marks[j]); }
  }

  /** Dead code gets a fresh block. */
  lemma EnsureLiveShape(b: Builder)
    requires BuilderOk(b)
    ensures Progress(b, EnsureLive(b), {}, {}, {}) && !EnsureLive(b).terminated
  {
    hide Progress, BuilderOk;
    ProgressSelf(b);
    if b.terminated {
      ProgressNew(b, b, {}, {}, {}, Code([], []), b.next);
      var b1 := NewBlock(b);
      ProgressBegin(b, b1, {}, {}, {} + {|b.blocks|}, Ret(None), |b.blocks|);
      assert {} + {|b.blocks|} - {|b.blocks|} == {};
    }
  }

  /** Mentioning a label may make its block. */
  lemma LabelBlockShape(b: Builder, id: nat)
    requires BuilderOk(b)
    ensures var (bb, b1) := LabelBlock(b, id);
            Progress(b, b1, {}, {}, {}) && id in b1.labels && b1.labels[id] == bb && b1.cur == b.cur
            && (id !in b.labels ==> Pending(b1, bb))
  {
    hide MarkHit;
    if id in b.labels {
      ProgressSelf(b);
    } else {
      var b0 := NewBlock(b);
      var b1 := b0.(labels := b.labels[id := |b.blocks|]);
      Added(b, b0, Code([], []));
      Named(b, b0, b1, id);
      forall l | l in b1.labels ensures LabelStep(b, b1, {}, l) { if l != id { assert IsLabelBlock(b, b.labels[l]); } }
      forall i: nat | i < |b1.blocks| && !IsLabelBlock(b1, i) ensures PlainStep(b, b1, {}, {}, i) { NoHit(b, i); }
    }
  }

  /** Giving the newest block to a new label. */
  lemma Named(b: Builder, b0: Builder, b1: Builder, id: nat)
    requires BuilderOk(b) && BuilderOk(b0) && b0 == NewBlock(b) && id !in b.labels
    requires b1 == b0.(labels := b.labels[id := |b.blocks|])
    ensures BuilderOk(b1)
    ensures forall i: nat :: IsLabelBlock(b1, i) <==> IsLabelBlock(b, i) || i == |b.blocks|
    ensures forall i: nat :: Pending(b1, i) <==> Pending(b0, i)
  {
    forall i: nat | i < |b1.blocks| ensures BlockOk(b1, i) { assert BlockOk(b0, i); }
    forall i: nat ensures IsLabelBlock(b1, i) <==> IsLabelBlock(b, i) || i == |b.blocks| {
      if IsLabelBlock(b, i) { var l :| l in b.labels && b.labels[l] == i; assert l in b1.labels && b1.labels[l] == i; }
      if i == |b.blocks| { assert b1.labels[id] == i; }
    }
    forall j | 0 <= j < |b1.marks| ensures MarksOk(b1, b1.marks[j]) { assert MarksOk(b, b.marks[j]); }
  }

  lemma NoHit(b: Builder, i: nat)
    ensures !MarkHit(b, {}, i)
  { }

  /** Begin the block of label `id`. */
  lemma PlaceLabel(b: Builder, id: nat)
    requires BuilderOk(b) && id in b.labels && Pending(b, b.labels[id])
    ensures Progress(b, Leave(b, b.labels[id], b.labels[id]), {id}, {}, {})
  {
    hide MarkHit;
    var bb := b.labels[id];
    var b1 := Leave(b, bb, bb);
    Begun(b, b1, Br(bb, []), bb);
    forall l | l in b1.labels ensures LabelStep(b, b1, {id}, l) { }
    forall i: nat | i < |b1.blocks| && !IsLabelBlock(b1, i) ensures PlainStep(b, b1, {}, {}, i) {
      NoHit(b, i);
      assert IsLabelBlock(b1, bb);
    }
  }

  /** Begin the block of mark `id`. */
  lemma PlaceMark(b: Builder, id: nat)
    requires BuilderOk(b) && id < |Top(b)| && Pending(b, Top(b)[id])
    ensures Progress(b, Leave(b, Top(b)[id], Top(b)[id]), {}, {id}, {})
  {
    hide MarkHit;
    var bb := Top(b)[id];
    var b1 := Leave(b, bb, bb);
    Begun(b, b1, Br(bb, []), bb);
    assert MarksOk(b, b.marks[|b.marks| - 1]);
    forall l | l in b1.labels ensures LabelStep(b, b1, {}, l) { assert IsLabelBlock(b, b.labels[l]); }
    forall i: nat | i < |b1.blocks| && !IsLabelBlock(b1, i) ensures PlainStep(b, b1, {id}, {}, i) {
      OneHit(b, id, i);
    }
  }

  lemma OneHit(b: Builder, id: nat, i: nat)
    requires id < |Top(b)|
    ensures MarkHit(b, {id}, i) <==> i == Top(b)[id]
  { }

  // ------------------------------------------------------------- sequencing

  lemma ReadyAfter(ss: Stmts, b: Builder, b1: Builder, ls: set<nat>, ms: set<nat>)
    requires BuilderOk(b) && CheckedIn(ss) && LabelsFree(b, LabelsIn(ss)) && MarksFree(b, MarksIn(ss))
    requires Progress(b, b1, ls, ms, {}) && ls !! LabelsIn(ss) && ms !! MarksIn(ss)
    ensures ReadyIn(ss, b1)
  {
    hide BlockOk, Pending, LabelsFree, MarksFree;
    StaysFree(b, b1, ls, ms, {}, LabelsIn(ss), MarksIn(ss));
  }

  lemma StmtReadyAfter(s: Stmt, b: Builder, b1: Builder, ls: set<nat>, ms: set<nat>, extra: set<nat>)
    requires BuilderOk(b) && Checked(s) && LabelsFree(b, Labels(s)) && MarksFree(b, Marks(s))
    requires Progress(b, b1, ls, ms, extra) && ls !! Labels(s) && ms !! Marks(s)
    ensures Ready(s, b1)
  {
    hide BlockOk, Pending, LabelsFree, MarksFree;
    StaysFree(b, b1, ls, ms, extra, Labels(s), Marks(s));
  }

  lemma FreeParts(b: Builder, ls: set<nat>, ms: set<nat>, ls1: set<nat>, ms1: set<nat>)
    requires LabelsFree(b, ls) && MarksFree(b, ms) && ls1 <= ls && ms1 <= ms
    ensures LabelsFree(b, ls1) && MarksFree(b, ms1)
  { }

  lemma HeadReady(ss: Stmts, b: Builder)
    requires ReadyIn(ss, b) && ss.MoreStmts?
    ensures Ready(ss.head, b)
    ensures CheckedIn(ss.tail) && LabelsFree(b, LabelsIn(ss.tail)) && MarksFree(b, MarksIn(ss.tail))
  {
    hide BuilderOk, LabelsFree, MarksFree;
    FreeParts(b, LabelsIn(ss), MarksIn(ss), Labels(ss.head), Marks(ss.head));
    FreeParts(b, LabelsIn(ss), MarksIn(ss), LabelsIn(ss.tail), MarksIn(ss.tail));
  }

  lemma TailReady(ss: Stmts, b: Builder)
    requires ReadyIn(ss, b) && ss.MoreStmts?
    requires Progress(b, LowerStmt(ss.head, b), Labels(ss.head), Marks(ss.head), {})
    ensures ReadyIn(ss.tail, LowerStmt(ss.head, b))
  {
    hide BuilderOk, LabelsFree, MarksFree, Progress;
    HeadReady(ss, b);
    ReadyAfter(ss.tail, b, LowerStmt(ss.head, b), Labels(ss.head), Marks(ss.head));
  }

  lemma {:induction false} BlockShape(ss: Stmts, b: Builder)
    requires ReadyIn(ss, b)
    ensures Progress(b, LowerBlock(ss, b), LabelsIn(ss), MarksIn(ss), {})
    decreases ss, 9, 0
  {
    hide BuilderOk, Progress, LabelsFree, MarksFree, LowerStmt;
    match ss
    case NoStmts => ProgressSelf(b);
    case MoreStmts(s, rest) =>
      HeadReady(ss, b);
      StmtShape(s, b);
      var b1 := LowerStmt(s, b);
      TailReady(ss, b);
      BlockShape(rest, b1);
      Then(b, b1, LowerBlock(rest, b1), Labels(s), Marks(s), LabelsIn(rest), MarksIn(rest), {}, LabelsIn(ss), MarksIn(ss));
  }

  lemma {:induction false} StmtShape(s: Stmt, b: Builder)
    requires Ready(s, b)
    ensures Progress(b, LowerStmt(s, b), Labels(s), Marks(s), {})
    decreases s, 8, 0
  {
    hide BuilderOk, Progress, LabelsFree, MarksFree, LowerLive, EnsureLive, LowerBlock, AtLabelBlock, Leave;
    if s.Block? {
      BlockShape(s.stmts, b);
    } else if s.CaseMark? {
      assert Labels(s) == {};
      MarkFree(b, s.id);
      PlaceMark(b, s.id);
    } else if s.Labeled? {
      LabeledShape(s, b);
    } else {
      EnsureLiveShape(b);
      var b1 := EnsureLive(b);
      StmtReadyAfter(s, b, b1, {}, {}, {});
      LiveShape(s, b1);
      Then(b, b1, LowerLive(s, b1), {}, {}, Labels(s), Marks(s), {}, Labels(s), Marks(s));
    }
  }

  lemma MarkFree(b: Builder, id: nat)
    requires MarksFree(b, {id})
    ensures id < |Top(b)| && Pending(b, Top(b)[id]) && b.marks != [] && Top(b) == b.marks[|b.marks| - 1]
  {
    assert id in {id};
  }

  lemma InnerReady(s: Stmt, b: Builder)
    requires Ready(s, b) && s.Labeled?
    ensures BuilderOk(b) && Checked(s.inner) && LabelsFree(b, Labels(s.inner)) && MarksFree(b, Marks(s.inner))
    ensures s.id in b.labels ==> Pending(b, b.labels[s.id])
  { }

  /** Placing a statement's label leaves the builder ready for what it labels. */
  lemma AtLabelShape(s: Stmt, b: Builder)
    requires Ready(s, b) && s.Labeled?
    ensures var b2 := AtLabelBlock(b, s.id);
            Progress(b, b2, {s.id}, {}, {}) && Ready(s.inner, b2) && !b2.terminated
  {
    hide BuilderOk, Progress, LabelsFree, MarksFree, Pending, LabelBlock;
    var id := s.id;
    InnerReady(s, b);
    LabelBlockShape(b, id);
    var (bb, b1) := LabelBlock(b, id);
    ProgressOk(b, b1, {}, {}, {});
    assert Pending(b1, bb) by { if id in b.labels { LabelSame(b, id); } }
    PlaceLabel(b1, id);
    var b2 := AtLabelBlock(b, id);
    Then(b, b1, b2, {}, {}, {id}, {}, {}, {id}, {});
    StmtReadyAfter(s.inner, b, b2, {id}, {}, {});
  }

  lemma LabelSame(b: Builder, id: nat)
    requires id in b.labels
    ensures LabelBlock(b, id) == (b.labels[id], b)
  { }

  lemma {:induction false} LabeledShape(s: Stmt, b: Builder)
    requires Ready(s, b) && s.Labeled?
    ensures Progress(b, LowerStmt(s, b), Labels(s), Marks(s), {})
    decreases s, 7, 0
  {
    hide BuilderOk, Progress, LabelsFree, MarksFree, AtLabelBlock;
    AtLabelShape(s, b);
    var b2 := AtLabelBlock(b, s.id);
    StmtShape(s.inner, b2);
    ReadyOk(s, b);
    Then(b, b2, LowerStmt(s.inner, b2), {s.id}, {}, Labels(s.inner), Marks(s.inner), {}, Labels(s), Marks(s));
  }

  lemma ReadyOk(s: Stmt, b: Builder)
    requires Ready(s, b)
    ensures BuilderOk(b) && Checked(s)
  { }

  // --------------------------------------------------- compound statements

  lemma PartReady(s: Stmt, part: nat, b: Builder)
    requires Ready(s, b) && HasPart(s, part) && !s.Switch?
    ensures Checked(Part(s, part)) && BuilderOk(b)
    ensures LabelsFree(b, Labels(Part(s, part))) && MarksFree(b, Marks(Part(s, part)))
  {
    FreeParts(b, Labels(s), Marks(s), Labels(Part(s, part)), Marks(Part(s, part)));
  }

  /** The blocks of `s` still to be begun when part `part` is opened. */
  function Left(s: Stmt, part: nat, b: Builder): set<nat>
    requires HasPart(s, part)
  {
    var n := Base(s, b);
    match s
    case If(_, _, els) => if part == 0 && els.Some? then {n + 1, n + 2} else {n + 1}
    case While(_, _) => {n + 2}
    case DoWhile(_, _) => {n + 1, n + 2}
    case For(_, _, _, _) => if part == 0 then {} else {n + 2, n + 3}
    case Switch(_, _, _, marks, _) => {n + marks}
  }

  /** What was placed before part `part`. */
  function LabelsBefore(s: Stmt, part: nat): set<nat> {
    if part == 1 && HasPart(s, 0) then Labels(Part(s, 0)) else {}
  }

  function MarksBefore(s: Stmt, part: nat): set<nat> {
    if part == 1 && HasPart(s, 0) then Marks(Part(s, 0)) else {}
  }

  lemma OpenIf(s: Stmt, b: Builder)
    requires s.If? && BuilderOk(b) && !b.terminated
    ensures Ahead(b, Open(s, 0, b), Left(s, 0, b))
  {
    hide BuilderOk, Ahead, EndWith;
    TruthShape(s.cond, b);
    var (cv, b1) := LowerTruth(s.cond, b);
    var n := |b1.blocks|;
    NewTwo(b, b1);
    NewThree(b, b1);
    if s.els.Some? {
      AheadEnd(b, NewBlocks(b1, 3), {n, n + 1, n + 2}, CondBr(cv, n, [], n + 2, []), n);
      assert {n, n + 1, n + 2} - {n} == {n + 1, n + 2};
    } else {
      AheadEnd(b, NewBlocks(b1, 2), {n, n + 1}, CondBr(cv, n, [], n + 1, []), n);
      assert {n, n + 1} - {n} == {n + 1};
    }
  }

  lemma OpenWhile(s: Stmt, b: Builder)
    requires s.While? && BuilderOk(b) && !b.terminated
    ensures Progress(b, Open(s, 0, b), {}, {}, Left(s, 0, b)) && !Open(s, 0, b).terminated
  {
    hide BuilderOk, Ahead, EndWith, Progress;
    var n := |b.blocks|;
    AheadSelf(b);
    NewThree(b, b);
    AheadEnd(b, NewBlocks(b, 3), {n, n + 1, n + 2}, Br(n, []), n);
    assert {n, n + 1, n + 2} - {n} == {n + 1, n + 2};
    var b2 := EndWith(NewBlocks(b, 3), Br(n, []), n);
    StillOk(b, b2, {n + 1, n + 2});
    TruthShape(s.cond, b2);
    var (cv, b3) := LowerTruth(s.cond, b2);
    AheadTrans(b, b2, b3, {n + 1, n + 2});
    AheadEnd(b, b3, {n + 1, n + 2}, CondBr(cv, n + 1, [], n + 2, []), n + 1);
    assert {n + 1, n + 2} - {n + 1} == {n + 2};
    var b4 := EndWith(b3, CondBr(cv, n + 1, [], n + 2, []), n + 1);
    AheadProgress(b, b4, {n + 2});
    ProgressStacks(b, b4, EnterLoop(b4, n, n + 2), {}, {}, {n + 2});
  }

  lemma OpenDoWhile(s: Stmt, b: Builder)
    requires s.DoWhile? && BuilderOk(b) && !b.terminated
    ensures Progress(b, Open(s, 0, b), {}, {}, Left(s, 0, b)) && !Open(s, 0, b).terminated
  {
    hide BuilderOk, Ahead, EndWith, Progress;
    var n := |b.blocks|;
    AheadSelf(b);
    NewThree(b, b);
    AheadEnd(b, NewBlocks(b, 3), {n, n + 1, n + 2}, Br(n, []), n);
    assert {n, n + 1, n + 2} - {n} == {n + 1, n + 2};
    var b2 := EndWith(NewBlocks(b, 3), Br(n, []), n);
    AheadProgress(b, b2, {n + 1, n + 2});
    ProgressStacks(b, b2, EnterLoop(b2, n + 1, n + 2), {}, {}, {n + 1, n + 2});
  }

  /** The head of a `for` begun at `b1`, its clause already lowered. */
  lemma OpenForHead(test: Option<Expr>, b1: Builder)
    requires BuilderOk(b1) && !b1.terminated
    ensures var n := |b1.blocks|;
            Ahead(b1, ForHead(test, n, EndWith(NewBlocks(b1, 4), Br(n, []), n)), {n + 2, n + 3})
  {
    hide BuilderOk, Ahead, EndWith;
    var n := |b1.blocks|;
    AheadSelf(b1);
    NewThree(b1, b1);
    AheadNew(b1, NewBlocks(b1, 3), {n, n + 1, n + 2});
    assert {n, n + 1, n + 2} + {n + 3} == {n, n + 1, n + 2, n + 3};
    AheadEnd(b1, NewBlocks(b1, 4), {n, n + 1, n + 2, n + 3}, Br(n, []), n);
    assert {n, n + 1, n + 2, n + 3} - {n} == {n + 1, n + 2, n + 3};
    assert {n + 1, n + 2, n + 3} - {n + 1} == {n + 2, n + 3};
    var b2 := EndWith(NewBlocks(b1, 4), Br(n, []), n);
    match test
    case None => AheadEnd(b1, b2, {n + 1, n + 2, n + 3}, Br(n + 1, []), n + 1);
    case Some(c) =>
      StillOk(b1, b2, {n + 1, n + 2, n + 3});
      TruthShape(c, b2);
      var (cv, b3) := LowerTruth(c, b2);
      AheadTrans(b1, b2, b3, {n + 1, n + 2, n + 3});
      AheadEnd(b1, b3, {n + 1, n + 2, n + 3}, CondBr(cv, n + 1, [], n + 3, []), n + 1);
  }

  lemma {:induction false} StraightLive(s: Stmt, b: Builder)
    requires Straight(s) && BuilderOk(b) && !b.terminated
    ensures BuilderOk(LowerStmt(s, b)) && !LowerStmt(s, b).terminated
    decreases s
  {
    hide BuilderOk, Ahead;
    match s
    case Do(e) => EffectShape(e, b); StillOk(b, LowerEffect(e, b), {});
    case Block(ss) => StraightBlockLive(ss, b);
    case _ =>
  }

  lemma {:induction false} StraightBlockLive(ss: Stmts, b: Builder)
    requires StraightIn(ss) && BuilderOk(b) && !b.terminated
    ensures BuilderOk(LowerBlock(ss, b)) && !LowerBlock(ss, b).terminated
    decreases ss
  {
    hide BuilderOk;
    match ss
    case NoStmts =>
    case MoreStmts(s, rest) => StraightLive(s, b); StraightBlockLive(rest, LowerStmt(s, b));
  }

  /** The clause of a `for` leaves control where it is. */
  lemma {:induction false} ForInitShape(s: Stmt, b: Builder)
    requires s.For? && Ready(s, b) && !b.terminated
    ensures var b1 := if s.init.Some? then LowerStmt(s.init.value, b) else b;
            Progress(b, b1, LabelsBefore(s, 1), MarksBefore(s, 1), {}) && !b1.terminated
    decreases s, 1, 0
  {
    hide BuilderOk, Progress, LabelsFree, MarksFree, LowerStmt, Straight;
    ReadyOk(s, b);
    if s.init.Some? {
      PartReady(s, 0, b);
      StmtShape(s.init.value, b);
      StraightLive(s.init.value, b);
    } else {
      ProgressSelf(b);
    }
  }

  lemma {:induction false} OpenFor(s: Stmt, b: Builder)
    requires s.For? && Ready(s, b) && !b.terminated
    ensures Progress(b, Open(s, 1, b), LabelsBefore(s, 1), MarksBefore(s, 1), Left(s, 1, b)) && !Open(s, 1, b).terminated
    decreases s, 1, 1
  {
    hide BuilderOk, Progress, Ahead, LabelsFree, MarksFree, LowerStmt, ForHead, EndWith;
    ReadyOk(s, b);
    ForInitShape(s, b);
    var b1 := if s.init.Some? then LowerStmt(s.init.value, b) else b;
    var n := |b1.blocks|;
    ProgressOk(b, b1, LabelsBefore(s, 1), MarksBefore(s, 1), {});
    OpenForHead(s.test, b1);
    var b3 := ForHead(s.test, n, EndWith(NewBlocks(b1, 4), Br(n, []), n));
    AheadProgress(b1, b3, {n + 2, n + 3});
    ProgressTrans(b, b1, b3, LabelsBefore(s, 1), MarksBefore(s, 1), {}, {}, {}, {n + 2, n + 3});
    assert {} + {n + 2, n + 3} == {n + 2, n + 3};
    assert LabelsBefore(s, 1) + {} == LabelsBefore(s, 1) && MarksBefore(s, 1) + {} == MarksBefore(s, 1);
    ProgressStacks(b, b3, EnterLoop(b3, n + 2, n + 3), LabelsBefore(s, 1), MarksBefore(s, 1), {n + 2, n + 3});
  }

  /** Opening a part of anything but a `switch`. */
  lemma {:induction false} OpenShape(s: Stmt, part: nat, b: Builder)
    requires Ready(s, b) && !b.terminated && HasPart(s, part) && !s.Switch?
    ensures Progress(b, Open(s, part, b), LabelsBefore(s, part), MarksBefore(s, part), Left(s, part, b))
    ensures Ready(Part(s, part), Open(s, part, b))
    decreases s, 3, 2 * part
  {
    hide BuilderOk, Progress, Ahead, LabelsFree, MarksFree, Open, LowerStmt;
    ReadyOk(s, b);
    PartReady(s, part, b);
    if s.If? && part == 0 {
      OpenIf(s, b);
      AheadProgress(b, Open(s, 0, b), Left(s, 0, b));
    } else if s.If? {
      InPartShape(s, 0, b);
      LaterOpen(s, b);
    } else if s.While? {
      OpenWhile(s, b);
    } else if s.DoWhile? {
      OpenDoWhile(s, b);
    } else if part == 1 {
      OpenFor(s, b);
    } else {
      OpenFirst(s, b);
      ProgressSelf(b);
    }
    PartsApart(s, part);
    StmtReadyAfter(Part(s, part), b, Open(s, part, b), LabelsBefore(s, part), MarksBefore(s, part), Left(s, part, b));
  }

  lemma OpenFirst(s: Stmt, b: Builder)
    requires s.For? && HasPart(s, 0)
    ensures Open(s, 0, b) == b && Left(s, 0, b) == {}
  { }

  lemma PartsApart(s: Stmt, part: nat)
    requires Checked(s) && HasPart(s, part) && !s.Switch?
    ensures LabelsBefore(s, part) !! Labels(Part(s, part)) && MarksBefore(s, part) !! Marks(Part(s, part))
  { }

  /** The `else` opens where the first arm is left. */
  lemma LaterOpen(s: Stmt, b: Builder)
    requires s.If? && HasPart(s, 1) && BuilderOk(b)
    requires Progress(b, InPart(s, 0, b), Labels(s.arm), Marks(s.arm), Left(s, 0, b))
    ensures Progress(b, Open(s, 1, b), LabelsBefore(s, 1), MarksBefore(s, 1), Left(s, 1, b))
  {
    hide BuilderOk, Progress;
    var n := Base(s, b);
    ProgressBegin(b, InPart(s, 0, b), Labels(s.arm), Marks(s.arm), Left(s, 0, b), Br(n + 1, []), n + 2);
    assert {n + 1, n + 2} - {n + 2} == {n + 1};
  }

  lemma {:induction false} InPartShape(s: Stmt, part: nat, b: Builder)
    requires Ready(s, b) && !b.terminated && HasPart(s, part) && !s.Switch?
    ensures Progress(b, InPart(s, part, b), LabelsBefore(s, part) + Labels(Part(s, part)),
                     MarksBefore(s, part) + Marks(Part(s, part)), Left(s, part, b))
    ensures part == 0 ==> Progress(b, InPart(s, 0, b), Labels(Part(s, 0)), Marks(Part(s, 0)), Left(s, 0, b))
    decreases s, 3, 2 * part + 1
  {
    hide BuilderOk, Progress, LabelsFree, MarksFree, Open, LowerStmt, Left;
    ReadyOk(s, b);
    OpenShape(s, part, b);
    var b1 := Open(s, part, b);
    StmtShape(Part(s, part), b1);
    Then(b, b1, InPart(s, part, b), LabelsBefore(s, part), MarksBefore(s, part), Labels(Part(s, part)), Marks(Part(s, part)),
         Left(s, part, b), LabelsBefore(s, part) + Labels(Part(s, part)), MarksBefore(s, part) + Marks(Part(s, part)));
    if part == 0 {
      assert {} + Labels(Part(s, 0)) == Labels(Part(s, 0)) && {} + Marks(Part(s, 0)) == Marks(Part(s, 0));
    }
  }

  // ------------------------------------------------------------------ switch

  ghost function Span(n: nat, count: nat): (r: set<nat>)
    ensures forall i: nat :: i in r <==> n <= i < n + count
  {
    if count == 0 then {} else Span(n, count - 1) + {n + count - 1}
  }

  lemma {:induction false} NewMany(b: Builder, b1: Builder, count: nat)
    requires BuilderOk(b) && Ahead(b, b1, {})
    ensures |NewBlocks(b1, count).blocks| == |b1.blocks| + count
    ensures Ahead(b, NewBlocks(b1, count), Span(|b1.blocks|, count))
  {
    hide Ahead, BuilderOk;
    if count == 0 {
      assert Span(|b1.blocks|, 0) == {};
    } else {
      NewMany(b, b1, count - 1);
      AheadNew(b, NewBlocks(b1, count - 1), Span(|b1.blocks|, count - 1));
    }
  }

  /** A `switch` up to its branch: all its blocks are still to be begun. */
  lemma SwitchHead(s: Stmt, b: Builder)
    requires s.Switch? && BuilderOk(b) && !b.terminated
    ensures var b5 := Open(s, 0, b); var n := Base(s, b);
            var b3 := b5.(marks := b.marks, breaks := b.breaks);
            && Progress(b, b3, {}, {}, Span(n, s.marks + 1)) && b5.terminated && |b5.blocks| == n + s.marks + 1
            && b5.marks == b.marks + [Consecutive(n, s.marks)] && b3.labels == b.labels && |b.blocks| <= n
            && forall i :: n <= i < |b5.blocks| ==> b5.blocks[i].params == []
  {
    hide Ahead, BuilderOk, Progress, Emit;
    ExprShape(s.scrutinee, b);
    var (x, b1) := LowerExpr(s.scrutinee, b);
    var n := |b1.blocks|;
    NewMany(b, b1, s.marks + 1);
    var b2 := NewBlocks(b1, s.marks + 1);
    var term := SwitchBr(x, if s.default.Some? then n + s.default.value else n + s.marks, Cases(s.cases, n));
    AheadProgress(b, b2, Span(n, s.marks + 1));
    AheadStacks(b, b1);
    ProgressFinish(b, b2, {}, {}, Span(n, s.marks + 1), term);
    EmitKeeps(b2, term);
    EmitParams(b2, term);
    assert Open(s, 0, b).(marks := b.marks, breaks := b.breaks) == Finish(b2, term);
  }

  lemma AheadStacks(b: Builder, b1: Builder)
    requires Ahead(b, b1, {})
    ensures b1.labels == b.labels && b1.marks == b.marks && b1.breaks == b.breaks && b1.continues == b.continues
    ensures |b.blocks| <= |b1.blocks|
  { }

  lemma EmitParams(b: Builder, item: Item)
    ensures forall i :: 0 <= i < |b.blocks| ==> Emit(b, item).blocks[i].params == b.blocks[i].params
  { }

  lemma EmitKeeps(b: Builder, item: Item)
    ensures var b1 := Emit(b, item);
            && b1.labels == b.labels && b1.marks == b.marks && b1.breaks == b.breaks && b1.continues == b.continues
            && |b1.blocks| == |b.blocks| && b1.cur == b.cur && b1.next == b.next && b1.terminated == b.terminated
  { }

  /** Pushing the marks of a switch, whose blocks are still to be begun. */
  lemma PushMarks(b3: Builder, b5: Builder, n: nat, count: nat)
    requires BuilderOk(b3) && n + count <= |b3.blocks|
    requires b5 == b3.(marks := b3.marks + [Consecutive(n, count)], breaks := b5.breaks)
    requires forall i: nat :: n <= i < n + count ==> Pending(b3, i) && !IsLabelBlock(b3, i) && b3.blocks[i].params == []
    ensures BuilderOk(b5) && Top(b5) == Consecutive(n, count)
    ensures forall i: nat :: Pending(b5, i) <==> Pending(b3, i)
    ensures forall i: nat :: IsLabelBlock(b5, i) <==> IsLabelBlock(b3, i)
    ensures MarksFree(b5, UpTo(count))
    ensures forall i: nat :: MarkHit(b5, UpTo(count), i) <==> n <= i < n + count
  {
    forall i: nat | i < |b5.blocks| ensures BlockOk(b5, i) { assert BlockOk(b3, i); }
    forall i: nat ensures IsLabelBlock(b5, i) <==> IsLabelBlock(b3, i) { SameLabelBlock(b3, b5, i); }
    forall j | 0 <= j < |b5.marks| ensures MarksOk(b5, b5.marks[j]) {
      if j < |b3.marks| {
        assert MarksOk(b3, b3.marks[j]) && b5.marks[j] == b3.marks[j];
      } else {
        assert b5.marks[j] == Consecutive(n, count);
      }
    }
    forall i: nat | n <= i < n + count ensures MarkHit(b5, UpTo(count), i) {
      assert Top(b5)[i - n] == i && i - n in UpTo(count);
    }
  }

  lemma SameLabelBlock(b: Builder, b1: Builder, i: nat)
    requires b1.labels == b.labels
    ensures IsLabelBlock(b1, i) <==> IsLabelBlock(b, i)
  { }

  /** Popping them again. */
  lemma PopMarks(b6: Builder, b7: Builder)
    requires BuilderOk(b6) && b7 == b6.(marks := Pop(b6.marks), breaks := b7.breaks)
    ensures BuilderOk(b7)
    ensures forall i: nat :: Pending(b7, i) <==> Pending(b6, i)
    ensures forall i: nat :: IsLabelBlock(b7, i) <==> IsLabelBlock(b6, i)
  {
    forall i: nat | i < |b7.blocks| ensures BlockOk(b7, i) { assert BlockOk(b6, i); }
    forall j | 0 <= j < |b7.marks| ensures MarksOk(b7, b7.marks[j]) { assert MarksOk(b6, b6.marks[j]); }
  }

  lemma SwitchOpenReady(s: Stmt, b: Builder)
    requires s.Switch? && Ready(s, b) && !b.terminated
    ensures Ready(s.body, Open(s, 0, b))
  {
    hide BuilderOk, Pending, BlockOk, MarkHit;
    ReadyOk(s, b);
    SwitchHead(s, b);
    var n := Base(s, b);
    var b5 := Open(s, 0, b);
    var b3 := b5.(marks := b.marks, breaks := b.breaks);
    SpanPending(b, b3, n, s.marks);
    PushMarks(b3, b5, n, s.marks);
    forall l | l in Labels(s.body) && l in b5.labels ensures Pending(b5, b5.labels[l]) {
      assert l in Labels(s) && LabelStep(b, b3, {}, l);
    }
  }

  lemma SpanPending(b: Builder, b3: Builder, n: nat, count: nat)
    requires Progress(b, b3, {}, {}, Span(n, count + 1))
    ensures forall i: nat :: n <= i < n + count ==> Pending(b3, i) && !IsLabelBlock(b3, i)
  {
    forall i: nat | n <= i < n + count ensures Pending(b3, i) && !IsLabelBlock(b3, i) {
      assert i in Span(n, count + 1);
      assert PlainStep(b, b3, {}, Span(n, count + 1), i);
    }
  }

  /** A switch whose body has been lowered to `b6`: only its exit is left. */
  lemma SwitchBodyShape(s: Stmt, b: Builder, b6: Builder)
    requires s.Switch? && Ready(s, b) && !b.terminated
    requires Progress(Open(s, 0, b), b6, Labels(s.body), Marks(s.body), {})
    ensures Progress(b, LeaveSwitch(b6), Labels(s), Marks(s), Left(s, 0, b))
  {
    hide BuilderOk, Progress, Ready, Open;
    ReadyOk(s, b);
    SwitchHead(s, b);
    SwitchInner(b, Open(s, 0, b), b6, Base(s, b), s.marks, Labels(s.body));
    assert Labels(s) == Labels(s.body);
  }

  lemma SwitchInner(b: Builder, b5: Builder, b6: Builder, n: nat, count: nat, ls: set<nat>)
    requires BuilderOk(b) && |b5.blocks| == n + count + 1 && |b.blocks| <= n && b5.labels == b.labels
    requires b5.marks == b.marks + [Consecutive(n, count)]
    requires forall i :: n <= i < |b5.blocks| ==> b5.blocks[i].params == []
    requires Progress(b, b5.(marks := b.marks, breaks := b.breaks), {}, {}, Span(n, count + 1))
    requires Progress(b5, b6, ls, UpTo(count), {})
    ensures Progress(b, LeaveSwitch(b6), ls, {}, {n + count})
  {
    hide BuilderOk, Pending, MarkHit, PlainStep, LabelStep, MarksOk;
    var b3 := b5.(marks := b.marks, breaks := b.breaks);
    SpanPending(b, b3, n, count);
    PushMarks(b3, b5, n, count);
    var b7 := LeaveSwitch(b6);
    PopMarks(b6, b7);
    GrowsTrans(b, b3, b6);
    SwitchLabels(b, b3, b5, b6, b7, ls, Span(n, count + 1), UpTo(count));
    SwitchPlains(b, b3, b5, b6, b7, n, count, ls);
    ExitPlain(b3, b5, b6, n + count, ls, UpTo(count));
  }

  lemma SwitchLabels(b: Builder, b3: Builder, b5: Builder, b6: Builder, b7: Builder, ls: set<nat>,
                     extra: set<nat>, ms: set<nat>)
    requires Progress(b, b3, {}, {}, extra) && Progress(b5, b6, ls, ms, {})
    requires b7.labels == b6.labels && b5.labels == b3.labels == b.labels && |b.blocks| <= |b5.blocks|
    requires forall i: nat :: Pending(b7, i) <==> Pending(b6, i)
    requires forall i: nat :: Pending(b5, i) <==> Pending(b3, i)
    ensures forall l :: l in b7.labels ==> LabelStep(b, b7, ls, l)
  {
    hide BuilderOk, Pending, MarkHit, PlainStep, LabelStep, Grows;
    forall l | l in b7.labels ensures LabelStep(b, b7, ls, l) {
      assert LabelStep(b5, b6, ls, l);
      if l in b.labels { assert LabelStep(b, b3, {}, l); }
      SwitchLabel(b, b3, b5, b6, b7, ls, l);
    }
  }

  lemma SwitchPlains(b: Builder, b3: Builder, b5: Builder, b6: Builder, b7: Builder, n: nat, count: nat, ls: set<nat>)
    requires Progress(b, b3, {}, {}, Span(n, count + 1)) && Progress(b5, b6, ls, UpTo(count), {})
    requires |b.blocks| <= n && |b3.blocks| == n + count + 1 && b5.labels == b3.labels && b7.blocks == b6.blocks
    requires b7.labels == b6.labels
    requires forall i: nat :: Pending(b7, i) <==> Pending(b6, i)
    requires forall i: nat :: Pending(b5, i) <==> Pending(b3, i)
    requires forall i: nat :: MarkHit(b5, UpTo(count), i) <==> n <= i < n + count
    ensures forall i: nat :: i < |b7.blocks| && !IsLabelBlock(b7, i) ==> PlainStep(b, b7, {}, {n + count}, i)
  {
    hide BuilderOk, Pending, MarkHit, PlainStep, LabelStep;
    forall i: nat | i < |b7.blocks| && !IsLabelBlock(b7, i) ensures PlainStep(b, b7, {}, {n + count}, i) {
      SameLabelBlock(b6, b7, i);
      LabelsStay(b5, b6, i);
      SameLabelBlock(b3, b5, i);
      SwitchPlain(b, b3, b5, b6, b7, n, count, i);
    }
  }

  lemma SwitchLabel(b: Builder, b3: Builder, b5: Builder, b6: Builder, b7: Builder, ls: set<nat>, l: nat)
    requires l in b6.labels && b7.labels == b6.labels && b5.labels == b3.labels == b.labels
    requires |b.blocks| <= |b5.blocks| && LabelStep(b5, b6, ls, l)
    requires l in b.labels ==> LabelStep(b, b3, {}, l)
    requires Pending(b7, b7.labels[l]) <==> Pending(b6, b7.labels[l])
    requires l in b.labels ==> (Pending(b5, b.labels[l]) <==> Pending(b3, b.labels[l]))
    ensures LabelStep(b, b7, ls, l)
  { }

  /** The body placed every mark, so of the blocks made for the switch only the
      exit is still to be begun. */
  lemma SwitchPlain(b: Builder, b3: Builder, b5: Builder, b6: Builder, b7: Builder, n: nat, count: nat, i: nat)
    requires PlainStep(b5, b6, UpTo(count), {}, i)
    requires i < |b3.blocks| ==> PlainStep(b, b3, {}, Span(n, count + 1), i)
    requires Pending(b7, i) <==> Pending(b6, i)
    requires Pending(b5, i) <==> Pending(b3, i)
    requires MarkHit(b5, UpTo(count), i) <==> n <= i < n + count
    requires |b.blocks| <= n && |b3.blocks| == n + count + 1
    ensures PlainStep(b, b7, {}, {n + count}, i)
  {
    NoHit(b, i);
    PendingBound(b);
    PendingBound(b3);
  }

  lemma LabelsStay(b: Builder, b1: Builder, i: nat)
    requires Grows(b, b1) && !IsLabelBlock(b1, i)
    ensures !IsLabelBlock(b, i)
  {
    forall l | l in b.labels ensures b.labels[l] != i { assert b1.labels[l] != i; }
  }

  /** The exit of a switch is no label's block. */
  lemma ExitPlain(b3: Builder, b5: Builder, b6: Builder, exit: nat, ls: set<nat>, ms: set<nat>)
    requires Progress(b5, b6, ls, ms, {}) && exit < |b5.blocks| && b5.labels == b3.labels && !IsLabelBlock(b3, exit)
    ensures !IsLabelBlock(b6, exit)
  {
    forall l | l in b6.labels ensures b6.labels[l] != exit {
      assert LabelStep(b5, b6, ls, l);
      if l in b5.labels { assert b3.labels[l] != exit; }
    }
  }

  // ------------------------------------------------------------------ closing

  /** The stacks popped when the last part of `s` is done. */
  function Unstack(s: Stmt, b1: Builder): Builder {
    if s.Switch? then LeaveSwitch(b1) else if s.While? || s.DoWhile? || s.For? then LeaveLoop(b1) else b1
  }

  lemma CloseShape(s: Stmt, b: Builder, b1: Builder, ls: set<nat>, ms: set<nat>)
    requires Compound(s) && BuilderOk(b) && Progress(b, Unstack(s, b1), ls, ms, Left(s, LastPart(s), b))
    ensures Progress(b, Close(s, b, b1), ls, ms, {})
  {
    hide BuilderOk, Progress, Ahead, Emit, Base;
    var n := Base(s, b);
    var b2 := Unstack(s, b1);
    match s
    case If(_, _, _) =>
      ProgressBegin(b, b2, ls, ms, {n + 1}, Br(n + 1, []), n + 1);
      assert {n + 1} - {n + 1} == {};
    case While(_, _) =>
      ProgressBegin(b, b2, ls, ms, {n + 2}, Br(n, []), n + 2);
      assert {n + 2} - {n + 2} == {};
    case DoWhile(_, c) =>
      ProgressBegin(b, b2, ls, ms, {n + 1, n + 2}, Br(n + 1, []), n + 1);
      assert {n + 1, n + 2} - {n + 1} == {n + 2};
      var b3 := Leave(b2, n + 1, n + 1);
      ProgressOk(b, b3, ls, ms, {n + 2});
      TruthShape(c, b3);
      var (cv, b4) := LowerTruth(c, b3);
      LastBegin(b, b3, b4, ls, ms, n + 2, CondBr(cv, n, [], n + 2, []));
    case For(_, _, step, _) =>
      ProgressBegin(b, b2, ls, ms, {n + 2, n + 3}, Br(n + 2, []), n + 2);
      assert {n + 2, n + 3} - {n + 2} == {n + 3};
      var b3 := Leave(b2, n + 2, n + 2);
      ProgressOk(b, b3, ls, ms, {n + 3});
      if step.Some? { EffectShape(step.value, b3); } else { AheadSelf(b3); }
      LastBegin(b, b3, if step.Some? then LowerEffect(step.value, b3) else b3, ls, ms, n + 3, Br(n, []));
    case Switch(_, _, _, marks, _) =>
      ProgressBegin(b, b2, ls, ms, {n + marks}, Br(n + marks, []), n + marks);
      assert {n + marks} - {n + marks} == {};
    case _ =>
  }

  lemma LastBegin(b: Builder, b3: Builder, b4: Builder, ls: set<nat>, ms: set<nat>, exit: nat, term: Item)
    requires BuilderOk(b) && Progress(b, b3, ls, ms, {exit}) && Ahead(b3, b4, {}) && term.Ends()
    ensures Progress(b, EndWith(b4, term, exit), ls, ms, {})
  {
    hide BuilderOk, Progress, Emit;
    AheadProgress(b3, b4, {});
    Then(b, b3, b4, ls, ms, {}, {}, {exit}, ls, ms);
    ProgressBegin(b, b4, ls, ms, {exit}, term, exit);
    assert {exit} - {exit} == {};
  }

  lemma AllParts(s: Stmt)
    requires Compound(s) && !s.Switch?
    ensures LabelsBefore(s, LastPart(s)) + Labels(Part(s, LastPart(s))) == Labels(s)
    ensures MarksBefore(s, LastPart(s)) + Marks(Part(s, LastPart(s))) == Marks(s)
  { }

  /** All parts of `s` lowered: what is left is closing it. */
  lemma {:induction false} LastPartShape(s: Stmt, b: Builder)
    requires Ready(s, b) && !b.terminated && Compound(s)
    ensures Progress(b, Unstack(s, InPart(s, LastPart(s), b)), Labels(s), Marks(s), Left(s, LastPart(s), b))
    decreases s, 4, 0
  {
    hide BuilderOk, Progress, LabelsFree, MarksFree, Open, LowerStmt, Left;
    ReadyOk(s, b);
    var p := LastPart(s);
    var b1 := InPart(s, p, b);
    if s.Switch? {
      SwitchOpenReady(s, b);
      StmtShape(s.body, Open(s, 0, b));
      SwitchBodyShape(s, b, b1);
    } else {
      InPartShape(s, p, b);
      AllParts(s);
      ProgressStacks(b, b1, Unstack(s, b1), Labels(s), Marks(s), Left(s, p, b));
    }
  }

  lemma {:induction false} CompoundShape(s: Stmt, b: Builder)
    requires Ready(s, b) && !b.terminated && Compound(s)
    ensures Progress(b, LowerLive(s, b), Labels(s), Marks(s), {})
    decreases s, 4, 1
  {
    hide BuilderOk, Progress, Ready, Left, Close, InPart, Unstack;
    ReadyOk(s, b);
    LastPartShape(s, b);
    CloseShape(s, b, InPart(s, LastPart(s), b), Labels(s), Marks(s));
    CompoundCloses(s, b);
  }

  lemma CompoundCloses(s: Stmt, b: Builder)
    requires Compound(s)
    ensures LowerLive(s, b) == Close(s, b, InPart(s, LastPart(s), b))
  { }

  lemma NoParts(s: Stmt)
    requires !Compound(s) && !IsMarker(s)
    ensures Labels(s) == {} && Marks(s) == {}
  { }

  lemma {:induction false} LiveShape(s: Stmt, b: Builder)
    requires Ready(s, b) && !b.terminated && !IsMarker(s)
    ensures Progress(b, LowerLive(s, b), Labels(s), Marks(s), {})
    decreases s, 5, 0
  {
    hide BuilderOk, Progress, LabelsFree, MarksFree, Ahead, Open, LowerStmt, Left, Close;
    ReadyOk(s, b);
    ProgressSelf(b);
    if Compound(s) {
      CompoundShape(s, b);
    } else {
      NoParts(s);
      match s
      case Do(e) =>
        EffectShape(e, b);
        AheadProgress(b, LowerEffect(e, b), {});
      case Return(Some(e)) =>
        ExprShape(e, b);
        var (v, b1) := LowerExpr(e, b);
        AheadProgress(b, b1, {});
        ProgressFinish(b, b1, {}, {}, {}, Ret(Some(v)));
      case Return(None) => ProgressFinish(b, b, {}, {}, {}, Ret(None));
      case Break => if b.breaks != [] { ProgressFinish(b, b, {}, {}, {}, Br(Last(b.breaks), [])); }
      case Continue => if b.continues != [] { ProgressFinish(b, b, {}, {}, {}, Br(Last(b.continues), [])); }
      case Goto(id) =>
        LabelBlockShape(b, id);
        var (bb, b1) := LabelBlock(b, id);
        SameLive(b, id);
        ProgressFinish(b, b1, {}, {}, {}, Br(bb, []));
      case _ =>
    }
  }

  lemma SameLive(b: Builder, id: nat)
    ensures LabelBlock(b, id).1.terminated == b.terminated
  { }
}
