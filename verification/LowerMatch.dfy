/** Which point of the blocks stands for which state of the statement machine. */
module LowerMatch {
  import opened Wrappers
  import opened Structured
  import opened BlockGraph
  import opened Lower
  import opened LowerShape
  import opened LowerExprs
  import opened LowerStmts
  import opened LowerRuns
  import opened LowerSealed
  import opened LowerPoints

  /** Labels and gotos of `s` are among the function's. */
  ghost predicate Known(fn: Fn, s: Stmt) {
    Labels(s) <= LabelsIn(fn.body) && GotosIn(s, LabelsIn(fn.body))
  }

  ghost predicate KnownIn(fn: Fn, ss: Stmts) {
    LabelsIn(ss) <= LabelsIn(fn.body) && AllGotosIn(ss, LabelsIn(fn.body))
  }

  /** `b` is what lowering part `part` of `s` from `b0` gives. */
  ghost predicate Within(fn: Fn, s: Stmt, part: nat, b0: Builder, b: Builder) {
    HasPart(s, part) && Ready(s, b0) && Known(fn, s) && !b0.terminated && b == InPart(s, part, b0)
  }

  /** The blocks filled from `b` on are those of continuation `k`. */
  ghost predicate KontMatch(fn: Fn, k: Kont, b: Builder)
    decreases k
  {
    match k
    case Stop => b == LowerBlock(fn.body, Fresh())
    case Rest(ss, k1) => ReadyIn(ss, b) && KnownIn(fn, ss) && KontMatch(fn, k1, LowerBlock(ss, b))
    case Inside(s, part, k1) =>
      exists b0: Builder :: Within(fn, s, part, b0, b) && KontMatch(fn, k1, LowerLive(s, b0))
  }

  /** `b` is about to lower `s`, and what follows is `k`. */
  ghost predicate StmtMatch(fn: Fn, s: Stmt, k: Kont, b: Builder) {
    Ready(s, b) && Known(fn, s) && !b.terminated && KontMatch(fn, k, LowerStmt(s, b))
  }

  ghost predicate ResumeMatch(fn: Fn, k: Kont, b: Builder) {
    !b.terminated && KontMatch(fn, k, b)
  }

  ghost predicate RunPoint(fn: Fn, s: Stmt, k: Kont, w: World, b: Builder, env: map<nat, int>, c: Conf) {
    StmtMatch(fn, s, k, b) && c == Here(b, env, w)
  }

  ghost predicate ResumePoint(fn: Fn, k: Kont, w: World, b: Builder, env: map<nat, int>, c: Conf) {
    ResumeMatch(fn, k, b) && c == Here(b, env, w)
  }

  /** Configuration `c` stands for state `st`. */
  ghost predicate Matches(fn: Fn, st: State, c: Conf) {
    match st
    case Run(s, k, w) => exists b: Builder, env: map<nat, int> :: RunPoint(fn, s, k, w, b, env, c)
    case Resume(k, w) => exists b: Builder, env: map<nat, int> :: ResumePoint(fn, k, w, b, env, c)
    case Finished(r, w) => c == Returned(r, w)
  }

  lemma RunMatches(fn: Fn, s: Stmt, k: Kont, w: World, b: Builder, env: map<nat, int>)
    requires StmtMatch(fn, s, k, b)
    ensures Matches(fn, Run(s, k, w), Here(b, env, w))
  {
    assert RunPoint(fn, s, k, w, b, env, Here(b, env, w));
  }

  lemma ResumeMatches(fn: Fn, k: Kont, w: World, b: Builder, env: map<nat, int>)
    requires ResumeMatch(fn, k, b)
    ensures Matches(fn, Resume(k, w), Here(b, env, w))
  {
    assert ResumePoint(fn, k, w, b, env, Here(b, env, w));
  }

  lemma PartKnown(fn: Fn, s: Stmt, part: nat)
    requires Known(fn, s) && HasPart(s, part)
    ensures Known(fn, Part(s, part))
  { }

  /** Running part `part` of a statement begun at `b0`. */
  lemma PartMatches(fn: Fn, s: Stmt, part: nat, k: Kont, b0: Builder)
    requires HasPart(s, part) && Ready(s, b0) && Known(fn, s) && !b0.terminated && !Open(s, part, b0).terminated
    requires KontMatch(fn, k, LowerLive(s, b0))
    ensures StmtMatch(fn, Part(s, part), Inside(s, part, k), Open(s, part, b0))
  {
    hide Ready, Known, LowerLive, Open, LowerStmt, Progress;
    PartOpens(s, part, b0);
    PartKnown(fn, s, part);
    assert Within(fn, s, part, b0, InPart(s, part, b0));
  }

  // ------------------------------------------------- matched builders are fine

  lemma BodyOk(fn: Fn)
    requires CheckedFn(fn)
    ensures BuilderOk(LowerBlock(fn.body, Fresh())) && Grows(LowerBlock(fn.body, Fresh()), LowerFn(fn))
  {
    hide BuilderOk, LowerBlock, Grows;
    BodyShape(fn);
    var b := LowerBlock(fn.body, Fresh());
    ProgressOk(Fresh(), b, LabelsIn(fn.body), {}, {});
    EmitGrows(b, Ret(if fn.isVoid then None else Some(Lit(0))), 0);
    GrowsSelf(b);
    EndGrows(fn, b);
  }

  lemma EndGrows(fn: Fn, b: Builder)
    requires Grows(b, Emit(b, Ret(if fn.isVoid then None else Some(Lit(0))))) && Grows(b, b)
    ensures Grows(b, LowerEnd(fn, b))
  { }

  /** Whatever matches is well formed, and part of the lowered function. */
  lemma {:induction false} KontGrows(fn: Fn, k: Kont, b: Builder)
    requires CheckedFn(fn) && KontMatch(fn, k, b)
    ensures BuilderOk(b) && Grows(b, LowerFn(fn))
    decreases k
  {
    hide BuilderOk, Grows, LowerBlock, LowerLive, InPart, Ready, Known, KnownIn, LowerFn;
    match k
    case Stop => BodyOk(fn);
    case Rest(ss, k1) =>
      ReadyInOk(ss, b);
      BlockShape(ss, b);
      ProgressOk(b, LowerBlock(ss, b), LabelsIn(ss), MarksIn(ss), {});
      KontGrows(fn, k1, LowerBlock(ss, b));
      GrowsTrans(b, LowerBlock(ss, b), LowerFn(fn));
    case Inside(s, part, k1) =>
      var b0: Builder :| Within(fn, s, part, b0, b) && KontMatch(fn, k1, LowerLive(s, b0));
      PartOpens(s, part, b0);
      ProgressOk(Open(s, part, b0), b, Labels(Part(s, part)), Marks(Part(s, part)), {});
      PartGrows(s, part, b0);
      KontGrows(fn, k1, LowerLive(s, b0));
      GrowsTrans(b, LowerLive(s, b0), LowerFn(fn));
  }

  lemma ReadyInOk(ss: Stmts, b: Builder)
    requires ReadyIn(ss, b)
    ensures BuilderOk(b)
  { }

  // -------------------------------------------------------- break and continue

  lemma StmtStacks(fn: Fn, ss: Stmts, b: Builder)
    requires KnownIn(fn, ss)
    ensures LowerBlock(ss, b).breaks == b.breaks && LowerBlock(ss, b).continues == b.continues
  {
    hide LowerBlock;
    BlockKeeps(ss, b, LabelsIn(fn.body));
  }

  lemma PartStacks(fn: Fn, s: Stmt, part: nat, b0: Builder)
    requires HasPart(s, part) && Known(fn, s)
    ensures var b := InPart(s, part, b0);
            && b.breaks == (if Breakable(s, part) then b0.breaks + [End(s, b0)] else b0.breaks)
            && b.continues == (if Continuable(s, part) then b0.continues + [Again(s, b0)] else b0.continues)
    ensures LowerLive(s, b0).breaks == b0.breaks && LowerLive(s, b0).continues == b0.continues
  {
    hide LowerLive, InPart, End, Again;
    PartKeeps(s, part, b0, LabelsIn(fn.body));
    LiveKeeps(s, b0, LabelsIn(fn.body));
  }

  /** `break` leads to the continuation after the innermost loop or switch. */
  lemma {:induction false} BreakMatch(fn: Fn, k: Kont, b: Builder) returns (b1: Builder)
    requires CheckedFn(fn) && KontMatch(fn, k, b)
    ensures BreakTo(k).None? ==> b.breaks == []
    ensures BreakTo(k).Some? ==> b.breaks != [] && ResumeMatch(fn, BreakTo(k).value, b1) && StartsAt(b1, Last(b.breaks))
    ensures BreakTo(k).Some? ==> Plain(LowerFn(fn), Last(b.breaks))
    decreases k
  {
    hide LowerBlock, LowerLive, InPart, Ready, Known, KnownIn, LowerFn, End, StartsAt, Grows, Plain;
    match k
    case Stop =>
      b1 := b;
      BodyShape(fn);
      assert b.breaks == Fresh().breaks;
    case Rest(ss, k1) =>
      StmtStacks(fn, ss, b);
      b1 := BreakMatch(fn, k1, LowerBlock(ss, b));
    case Inside(s, part, k1) =>
      var b0: Builder :| Within(fn, s, part, b0, b) && KontMatch(fn, k1, LowerLive(s, b0));
      PartStacks(fn, s, part, b0);
      if Breakable(s, part) {
        b1 := LowerLive(s, b0);
        EndStarts(s, b0);
        StartsLive(b1, End(s, b0));
        KontGrows(fn, k1, b1);
        EndPlain(s, b0, LowerFn(fn));
      } else {
        b1 := BreakMatch(fn, k1, LowerLive(s, b0));
      }
  }

  lemma StartsLive(b: Builder, bb: nat)
    requires StartsAt(b, bb)
    ensures !b.terminated
  { }

  lemma EndPlain(s: Stmt, b: Builder, g: Builder)
    requires Ready(s, b) && !b.terminated && Compound(s) && Grows(LowerLive(s, b), g)
    ensures Plain(g, End(s, b)) && Plain(g, Base(s, b)) && (!s.Switch? ==> Plain(g, Base(s, b) + 1))
    ensures s.While? || s.DoWhile? || s.For? ==> Plain(g, Again(s, b)) && Plain(g, Base(s, b) + 2)
  {
    hide Ready, Grows, LowerLive, Plain, Base;
    BlocksPlain(s, b, g);
  }

  /** `continue` leads to the innermost loop's own way round. */
  lemma {:induction false} ContinueMatch(fn: Fn, k: Kont, b: Builder) returns (b0: Builder)
    requires CheckedFn(fn) && KontMatch(fn, k, b)
    ensures ContinueTo(k).None? ==> b.continues == []
    ensures ContinueTo(k).Some? ==>
              && ContinueTo(k).value.Inside? && var loop := ContinueTo(k).value;
              && Continuable(loop.s, loop.part) && HasPart(loop.s, loop.part)
              && Ready(loop.s, b0) && Known(fn, loop.s) && !b0.terminated
              && KontMatch(fn, loop.k, LowerLive(loop.s, b0))
              && b.continues != [] && Last(b.continues) == Again(loop.s, b0)
    decreases k
  {
    hide LowerBlock, LowerLive, InPart, Ready, Known, KnownIn, LowerFn, Again;
    match k
    case Stop =>
      b0 := b;
      BodyShape(fn);
      assert b.continues == Fresh().continues;
    case Rest(ss, k1) =>
      StmtStacks(fn, ss, b);
      b0 := ContinueMatch(fn, k1, LowerBlock(ss, b));
    case Inside(s, part, k1) =>
      var b2: Builder :| Within(fn, s, part, b2, b) && KontMatch(fn, k1, LowerLive(s, b2));
      PartStacks(fn, s, part, b2);
      if Continuable(s, part) {
        b0 := b2;
      } else {
        b0 := ContinueMatch(fn, k1, LowerLive(s, b2));
      }
  }

  // ------------------------------------------------------------ labels and marks

  /** The block of a place, as the builder after its statement knows it. */
  predicate PlaceIs(p: Place, b: Builder, b1: Builder, bb: nat) {
    match p
    case AtLabel(id) => id in b1.labels && b1.labels[id] == bb
    case AtMark(id) => id < |Top(b)| && Top(b)[id] == bb
  }

  /** A builder at the beginning of block `bb`, standing for `st`. */
  ghost predicate Landing(fn: Fn, st: State, bb: nat, b2: Builder) {
    && StartsAt(b2, bb)
    && match st
       case Run(s, k, _) => StmtMatch(fn, s, k, b2)
       case Resume(k, _) => ResumeMatch(fn, k, b2)
       case Finished(_, _) => false
  }

  /** The point `Find` finds in `s` is the beginning of its label's or mark's
      block. */
  lemma {:induction false} FindMatch(fn: Fn, s: Stmt, p: Place, k: Kont, w: World, b: Builder)
    returns (bb: nat, b2: Builder)
    requires Ready(s, b) && Known(fn, s) && KontMatch(fn, k, LowerStmt(s, b)) && Find(s, p, k, w).Some?
    ensures PlaceIs(p, b, LowerStmt(s, b), bb) && Landing(fn, Find(s, p, k, w).value, bb, b2)
    decreases s, 9
  {
    hide BuilderOk, Ready, Known, KnownIn, StartsAt, Progress, LowerLive, EnsureLive, LowerBlock, AtLabelBlock, KontMatch, Landing, PlaceIs;
    if s.Block? {
      BlockParts(fn, s, b);
      bb, b2 := FindInMatch(fn, s.stmts, p, k, w, b);
    } else if s.CaseMark? {
      bb, b2 := MarkLanding(fn, s, k, w, b);
    } else if s.Labeled? {
      AtLabelShape(s, b);
      LabeledKnown(fn, s);
      var b1 := AtLabelBlock(b, s.id);
      if p == AtLabel(s.id) {
        bb := LabelLanding(fn, s, k, w, b);
        b2 := b1;
      } else {
        bb, b2 := FindMatch(fn, s.inner, p, k, w, b1);
        PlaceBefore(p, b, b1, LowerStmt(s, b), bb, s.id);
      }
    } else {
      var b1 := EnsureLive(b);
      EnsureLiveShape(b) by { ReadyOk(s, b); }
      LiveReady(s, b);
      bb, b2 := FindPartMatch(fn, s, p, k, w, b1);
      PlaceLive(p, b, LowerStmt(s, b), bb);
    }
  }

  lemma BlockParts(fn: Fn, s: Stmt, b: Builder)
    requires Ready(s, b) && Known(fn, s) && s.Block?
    ensures ReadyIn(s.stmts, b) && KnownIn(fn, s.stmts)
  { }

  lemma LabeledKnown(fn: Fn, s: Stmt)
    requires Known(fn, s) && s.Labeled?
    ensures Known(fn, s.inner)
  { }

  lemma LiveReady(s: Stmt, b: Builder)
    requires Ready(s, b)
    ensures Ready(s, EnsureLive(b)) && !EnsureLive(b).terminated
  {
    hide BuilderOk, LabelsFree, MarksFree, Progress, EnsureLive;
    EnsureLiveShape(b);
    StmtReadyAfter(s, b, EnsureLive(b), {}, {}, {});
  }

  lemma PlaceLive(p: Place, b: Builder, b1: Builder, bb: nat)
    requires PlaceIs(p, EnsureLive(b), b1, bb)
    ensures PlaceIs(p, b, b1, bb)
  { }

  lemma PlaceBefore(p: Place, b: Builder, b1: Builder, b2: Builder, bb: nat, id: nat)
    requires b1 == AtLabelBlock(b, id) && PlaceIs(p, b1, b2, bb)
    ensures PlaceIs(p, b, b2, bb)
  { }

  lemma MarkLanding(fn: Fn, s: Stmt, k: Kont, w: World, b: Builder) returns (bb: nat, b2: Builder)
    requires s.CaseMark? && Ready(s, b) && KontMatch(fn, k, LowerStmt(s, b))
    ensures PlaceIs(AtMark(s.id), b, LowerStmt(s, b), bb) && Landing(fn, Resume(k, w), bb, b2)
  {
    hide BuilderOk, KontMatch;
    MarkFree(b, s.id);
    bb := Top(b)[s.id];
    b2 := LowerStmt(s, b);
    LeaveStarts(b, bb);
  }

  lemma LeaveStarts(b: Builder, bb: nat)
    requires Pending(b, bb)
    ensures StartsAt(Leave(b, bb, bb), bb)
  { }

  lemma LabelLanding(fn: Fn, s: Stmt, k: Kont, w: World, b: Builder) returns (bb: nat)
    requires s.Labeled? && Ready(s, b) && Known(fn, s) && KontMatch(fn, k, LowerStmt(s, b))
    ensures PlaceIs(AtLabel(s.id), b, LowerStmt(s, b), bb)
    ensures Landing(fn, Run(s.inner, k, w), bb, AtLabelBlock(b, s.id))
  {
    hide BuilderOk, KontMatch, Progress, Grows, Pending, LabelsFree, MarksFree, Checked, LowerStmt;
    var b2 := AtLabelBlock(b, s.id);
    bb := LabelBlock(b, s.id).0;
    AtLabelShape(s, b);
    InnerReady(s, b);
    LabelBlockShape(b, s.id);
    assert Pending(LabelBlock(b, s.id).1, bb) by { if s.id in b.labels { LabelSame(b, s.id); } }
    LeaveStarts(LabelBlock(b, s.id).1, bb);
    StmtShape(s.inner, b2);
    ProgressOk(b2, LowerStmt(s.inner, b2), Labels(s.inner), Marks(s.inner), {});
    assert LowerStmt(s, b) == LowerStmt(s.inner, b2) by { LowerLabeled(s, b); }
    LabelStays(b2, LowerStmt(s, b), s.id);
    LabeledKnown(fn, s);
  }

  lemma LowerLabeled(s: Stmt, b: Builder)
    requires s.Labeled?
    ensures LowerStmt(s, b) == LowerStmt(s.inner, AtLabelBlock(b, s.id))
  { }

  lemma LabelStays(b: Builder, b1: Builder, l: nat)
    requires Grows(b, b1) && l in b.labels
    ensures l in b1.labels && b1.labels[l] == b.labels[l]
  { }

  lemma {:induction false} FindInMatch(fn: Fn, ss: Stmts, p: Place, k: Kont, w: World, b: Builder)
    returns (bb: nat, b2: Builder)
    requires ReadyIn(ss, b) && KnownIn(fn, ss) && KontMatch(fn, k, LowerBlock(ss, b)) && FindIn(ss, p, k, w).Some?
    ensures PlaceIs(p, b, LowerBlock(ss, b), bb) && Landing(fn, FindIn(ss, p, k, w).value, bb, b2)
    decreases ss, 9
  {
    hide BuilderOk, ReadyIn, Ready, Known, KnownIn, StartsAt, Progress, Grows, LowerStmt, Landing, PlaceIs;
    var s, rest := ss.head, ss.tail;
    HeadReady(ss, b);
    HeadKnown(fn, ss);
    StmtShape(s, b);
    TailReady(ss, b);
    var b1 := LowerStmt(s, b);
    BlockShape(rest, b1);
    if Find(s, p, Rest(rest, k), w).Some? {
      bb, b2 := FindMatch(fn, s, p, Rest(rest, k), w, b);
      ProgressOk(b1, LowerBlock(rest, b1), LabelsIn(rest), MarksIn(rest), {});
      PlaceAfter(p, b, b1, LowerBlock(ss, b), bb);
    } else {
      bb, b2 := FindInMatch(fn, rest, p, k, w, b1);
      ProgressOk(b, b1, Labels(s), Marks(s), {});
      PlaceTop(p, b, b1, LowerBlock(ss, b), bb);
    }
  }

  lemma HeadKnown(fn: Fn, ss: Stmts)
    requires KnownIn(fn, ss) && ss.MoreStmts?
    ensures Known(fn, ss.head) && KnownIn(fn, ss.tail)
  { }

  lemma PlaceAfter(p: Place, b: Builder, b1: Builder, b2: Builder, bb: nat)
    requires PlaceIs(p, b, b1, bb) && Grows(b1, b2)
    ensures PlaceIs(p, b, b2, bb)
  { }

  lemma PlaceTop(p: Place, b: Builder, b1: Builder, b2: Builder, bb: nat)
    requires PlaceIs(p, b1, b2, bb) && b1.marks == b.marks
    ensures PlaceIs(p, b, b2, bb)
  { }

  lemma {:induction false} FindPartMatch(fn: Fn, s: Stmt, p: Place, k: Kont, w: World, b: Builder)
    returns (bb: nat, b2: Builder)
    requires Ready(s, b) && !b.terminated && !IsMarker(s) && Known(fn, s)
    requires KontMatch(fn, k, LowerLive(s, b)) && Find(s, p, k, w).Some?
    ensures PlaceIs(p, b, LowerLive(s, b), bb) && Landing(fn, Find(s, p, k, w).value, bb, b2)
    decreases s, 8
  {
    hide BuilderOk, Ready, Known, KnownIn, StartsAt, Progress, Grows, LowerStmt, LowerLive, Landing, PlaceIs, Open;
    var part := if HasPart(s, 0) && Find(Part(s, 0), p, Inside(s, 0, k), w).Some? then 0 else 1;
    assert HasPart(s, part) && Find(Part(s, part), p, Inside(s, part, k), w) == Find(s, p, k, w);
    assert !(s.Switch? && p.AtMark?);
    PartOpens(s, part, b);
    PartKnown(fn, s, part);
    var b1 := Open(s, part, b);
    assert Within(fn, s, part, b, InPart(s, part, b));
    bb, b2 := FindMatch(fn, Part(s, part), p, Inside(s, part, k), w, b1);
    PartGrows(s, part, b);
    PlaceAfter(p, b1, InPart(s, part, b), LowerLive(s, b), bb);
    if p.AtMark? {
      OpenKeeps(s, part, b, LabelsIn(fn.body)) by { SomeKnown(fn, s); }
      PlaceTop(p, b, b1, LowerLive(s, b), bb) by { OpenMarks(fn, s, part, b); }
    } else {
      PlaceLabelOnly(p, b1, b, LowerLive(s, b), bb);
    }
  }

  lemma SomeKnown(fn: Fn, s: Stmt)
    requires Known(fn, s)
    ensures Labels(s) <= LabelsIn(fn.body) && GotosIn(s, LabelsIn(fn.body))
  { }

  lemma OpenMarks(fn: Fn, s: Stmt, part: nat, b: Builder)
    requires HasPart(s, part) && Known(fn, s) && !s.Switch?
    ensures Open(s, part, b).marks == b.marks
  {
    hide Open;
    OpenKeeps(s, part, b, LabelsIn(fn.body));
  }

  lemma PlaceLabelOnly(p: Place, b: Builder, b0: Builder, b1: Builder, bb: nat)
    requires PlaceIs(p, b, b1, bb) && p.AtLabel?
    ensures PlaceIs(p, b0, b1, bb)
  { }

  // ------------------------------------------------------------- always found

  /** A defined label is found, and a placed mark. */
  lemma {:induction false} FindSome(s: Stmt, p: Place, k: Kont, w: World)
    requires match p case AtLabel(id) => id in Labels(s) case AtMark(id) => id in Marks(s)
    ensures Find(s, p, k, w).Some?
    decreases s
  {
    if s.Block? {
      FindInSome(s.stmts, p, k, w);
    } else if s.Labeled? {
      if p != AtLabel(s.id) { FindSome(s.inner, p, k, w); }
    } else if !s.CaseMark? {
      if HasPart(s, 0) && (match p case AtLabel(id) => id in Labels(Part(s, 0)) case AtMark(id) => id in Marks(Part(s, 0))) {
        FindSome(Part(s, 0), p, Inside(s, 0, k), w);
      } else if HasPart(s, 1) {
        FindSome(Part(s, 1), p, Inside(s, 1, k), w);
      }
    }
  }

  lemma {:induction false} FindInSome(ss: Stmts, p: Place, k: Kont, w: World)
    requires match p case AtLabel(id) => id in LabelsIn(ss) case AtMark(id) => id in MarksIn(ss)
    ensures FindIn(ss, p, k, w).Some?
    decreases ss
  {
    if match p case AtLabel(id) => id in Labels(ss.head) case AtMark(id) => id in Marks(ss.head) {
      FindSome(ss.head, p, Rest(ss.tail, k), w);
    } else {
      FindInSome(ss.tail, p, k, w);
    }
  }
}
