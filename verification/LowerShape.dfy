/** The shape of lowered code: what one lowering step may do to the blocks, and
    that every block ends up with exactly one terminator, at its end. */
module LowerShape {
  import opened BlockGraph
  import opened Lower

  // ------------------------------------------------------ states of a block

  predicate AllInner(items: seq<Item>) {
    forall i :: 0 <= i < |items| ==> !items[i].Ends()
  }

  /** Exactly one terminator, in the last place. */
  predicate Sealed(items: seq<Item>) {
    items != [] && items[|items| - 1].Ends() && AllInner(items[..|items| - 1])
  }

  /** Made but not yet begun. */
  predicate Pending(b: Builder, i: nat) {
    i < |b.blocks| && b.blocks[i].items == [] && !(i == b.cur && !b.terminated)
  }

  predicate BlockOk(b: Builder, i: nat)
    requires i < |b.blocks|
  {
    if i == b.cur && !b.terminated then AllInner(b.blocks[i].items)
    else b.blocks[i].items == [] || Sealed(b.blocks[i].items)
  }

  ghost predicate LabelsOk(b: Builder) {
    && (forall l :: l in b.labels ==> b.labels[l] < |b.blocks| && b.blocks[b.labels[l]].params == [])
    && (forall l, l' :: l in b.labels && l' in b.labels && l != l' ==> b.labels[l] != b.labels[l'])
  }

  ghost predicate IsLabelBlock(b: Builder, i: nat) {
    exists l :: l in b.labels && b.labels[l] == i
  }

  ghost predicate MarksOk(b: Builder, marks: seq<nat>) {
    && (forall m :: 0 <= m < |marks| ==> marks[m] < |b.blocks| && b.blocks[marks[m]].params == [] && !IsLabelBlock(b, marks[m]))
    && (forall m, m' :: 0 <= m < m' < |marks| ==> marks[m] != marks[m'])
  }

  ghost predicate BuilderOk(b: Builder) {
    && b.cur < |b.blocks|
    && (forall i: nat :: i < |b.blocks| ==> BlockOk(b, i))
    && LabelsOk(b)
    && (forall j :: 0 <= j < |b.marks| ==> MarksOk(b, b.marks[j]))
  }

  function Top(b: Builder): seq<nat> {
    if b.marks == [] then [] else b.marks[|b.marks| - 1]
  }

  /** Is `i` the block of one of the innermost switch's marks `ms`? */
  ghost predicate MarkHit(b: Builder, ms: set<nat>, i: nat) {
    exists m :: m in ms && m < |Top(b)| && Top(b)[m] == i
  }

  /** The labels `ls` and marks `ms` are still to be placed. */
  ghost predicate LabelsFree(b: Builder, ls: set<nat>) {
    forall l :: l in ls && l in b.labels ==> Pending(b, b.labels[l])
  }

  ghost predicate MarksFree(b: Builder, ms: set<nat>) {
    forall m :: m in ms ==> m < |Top(b)| && Pending(b, Top(b)[m])
  }

  // ---------------------------------------------------------------- growth

  predicate CodeGrows(c: Code, c': Code) {
    c.params == c'.params && c.items <= c'.items
  }

  /** Blocks only grow at the end, labels keep their blocks. */
  ghost predicate Grows(b: Builder, b': Builder) {
    && |b.blocks| <= |b'.blocks| && b.next <= b'.next
    && (forall i: nat :: i < |b.blocks| ==> CodeGrows(b.blocks[i], b'.blocks[i]))
    && (forall l :: l in b.labels ==> l in b'.labels && b'.labels[l] == b.labels[l])
  }

  lemma GrowsTrans(b: Builder, b1: Builder, b2: Builder)
    requires Grows(b, b1) && Grows(b1, b2)
    ensures Grows(b, b2)
  {
    forall i: nat | i < |b.blocks| ensures CodeGrows(b.blocks[i], b2.blocks[i]) {
      assert CodeGrows(b.blocks[i], b1.blocks[i]) && CodeGrows(b1.blocks[i], b2.blocks[i]);
    }
  }

  // -------------------------------------------------------------- progress

  ghost predicate LabelStep(b: Builder, b': Builder, ls: set<nat>, l: nat)
    requires l in b'.labels
  {
    && (l !in b.labels ==> b'.labels[l] >= |b.blocks|)
    && (Pending(b', b'.labels[l]) <==> l !in ls && (l in b.labels ==> Pending(b, b.labels[l])))
  }

  ghost predicate PlainStep(b: Builder, b': Builder, ms: set<nat>, extra: set<nat>, i: nat) {
    Pending(b', i) <==> (Pending(b, i) && !MarkHit(b, ms, i)) || i in extra
  }

  /** From `b` to `b'` the labels `ls` and the marks `ms` were placed; besides
      labels not yet placed, the only new blocks still to be begun are `extra`. */
  ghost predicate Progress(b: Builder, b': Builder, ls: set<nat>, ms: set<nat>, extra: set<nat>) {
    && BuilderOk(b') && Grows(b, b') && b'.marks == b.marks
    && (forall l :: l in ls ==> l in b'.labels)
    && (forall l :: l in b'.labels ==> LabelStep(b, b', ls, l))
    && (forall i: nat :: i < |b'.blocks| && !IsLabelBlock(b', i) ==> PlainStep(b, b', ms, extra, i))
    && (forall i :: i in extra ==> |b.blocks| <= i < |b'.blocks| && !IsLabelBlock(b', i))
  }

  /** Code without labels was added and control goes on. */
  ghost predicate Ahead(b: Builder, b': Builder, extra: set<nat>) {
    && Progress(b, b', {}, {}, extra) && !b'.terminated
    && b'.labels == b.labels && b'.breaks == b.breaks && b'.continues == b.continues
  }

  lemma ProgressSelf(b: Builder)
    requires BuilderOk(b)
    ensures Progress(b, b, {}, {}, {})
  {
    forall i: nat | i < |b.blocks| && !IsLabelBlock(b, i) ensures PlainStep(b, b, {}, {}, i) { }
  }

  /** Two steps in a row; what the first left over stays so. */
  lemma ProgressTrans(b: Builder, b1: Builder, b2: Builder, ls: set<nat>, ms: set<nat>,
                      ls2: set<nat>, ms2: set<nat>, extra: set<nat>, extra2: set<nat>)
    requires BuilderOk(b) && Progress(b, b1, ls, ms, extra) && Progress(b1, b2, ls2, ms2, extra2)
    ensures Progress(b, b2, ls + ls2, ms + ms2, extra + extra2)
  {
    hide BlockOk, Pending, CodeGrows;
    GrowsTrans(b, b1, b2);
    forall l | l in b2.labels ensures LabelStep(b, b2, ls + ls2, l) {
      assert LabelStep(b1, b2, ls2, l);
      if l in b1.labels { assert LabelStep(b, b1, ls, l); }
    }
    forall i: nat | IsLabelBlock(b1, i) ensures IsLabelBlock(b2, i) {
      var l :| l in b1.labels && b1.labels[l] == i;
      assert l in b2.labels && b2.labels[l] == i;
    }
    PendingBound(b);
    PendingBound(b1);
    forall i: nat | i < |b2.blocks| && !IsLabelBlock(b2, i) ensures PlainStep(b, b2, ms + ms2, extra + extra2, i) {
      PlainTwice(b, b1, b2, ls, ms, ls2, ms2, extra, extra2, i);
    }
    forall i | i in extra ensures !IsLabelBlock(b2, i) {
      forall l | l in b2.labels ensures b2.labels[l] != i {
        assert LabelStep(b1, b2, ls2, l);
      }
    }
  }

  lemma PendingBound(b: Builder)
    ensures forall i: nat :: Pending(b, i) ==> i < |b.blocks|
  { }

  lemma PlainTwice(b: Builder, b1: Builder, b2: Builder, ls: set<nat>, ms: set<nat>,
                   ls2: set<nat>, ms2: set<nat>, extra: set<nat>, extra2: set<nat>, i: nat)
    requires BuilderOk(b) && Progress(b, b1, ls, ms, extra) && Progress(b1, b2, ls2, ms2, extra2)
    requires i < |b2.blocks| && !IsLabelBlock(b2, i) && (IsLabelBlock(b1, i) ==> IsLabelBlock(b2, i))
    ensures PlainStep(b, b2, ms + ms2, extra + extra2, i)
  {
    hide BlockOk, Pending, CodeGrows, LabelStep;
    PendingBound(b);
    PendingBound(b1);
    assert PlainStep(b1, b2, ms2, extra2, i);
    if i < |b1.blocks| { assert PlainStep(b, b1, ms, extra, i); }
    assert Top(b1) == Top(b);
    assert MarkHit(b, ms + ms2, i) <==> MarkHit(b, ms, i) || MarkHit(b1, ms2, i);
    TopOld(b);
    assert i in extra ==> !MarkHit(b1, ms2, i);
  }

  lemma TopOld(b: Builder)
    requires BuilderOk(b)
    ensures forall m :: 0 <= m < |Top(b)| ==> Top(b)[m] < |b.blocks|
  {
    if b.marks != [] { assert MarksOk(b, b.marks[|b.marks| - 1]); }
  }

  /** What is still to be placed stays free across other progress. */
  lemma StaysFree(b: Builder, b1: Builder, ls: set<nat>, ms: set<nat>, extra: set<nat>, ls2: set<nat>, ms2: set<nat>)
    requires BuilderOk(b) && Progress(b, b1, ls, ms, extra) && ls !! ls2 && ms !! ms2
    requires LabelsFree(b, ls2) && MarksFree(b, ms2)
    ensures LabelsFree(b1, ls2) && MarksFree(b1, ms2)
  {
    hide BlockOk, Pending, CodeGrows;
    forall l | l in ls2 && l in b1.labels ensures Pending(b1, b1.labels[l]) {
      assert LabelStep(b, b1, ls, l);
    }
    assert Top(b1) == Top(b);
    forall m | m in ms2 ensures m < |Top(b1)| && Pending(b1, Top(b1)[m]) {
      var i := Top(b)[m];
      assert MarksOk(b, b.marks[|b.marks| - 1]) && MarksOk(b1, b1.marks[|b1.marks| - 1]);
      assert PlainStep(b, b1, ms, extra, i);
      assert !MarkHit(b, ms, i);
    }
  }

  // ------------------------------------------------- progress, step by step

  lemma ProgressNew(b: Builder, b1: Builder, ls: set<nat>, ms: set<nat>, extra: set<nat>, c: Code, next: nat)
    requires Progress(b, b1, ls, ms, extra) && BuilderOk(b) && c.items == [] && next >= b1.next
    ensures Progress(b, b1.(blocks := b1.blocks + [c], next := next), ls, ms, extra + {|b1.blocks|})
  {
    hide LabelStep, PlainStep, MarkHit;
    var b2 := b1.(blocks := b1.blocks + [c], next := next);
    Added(b1, b2, c);
    GrowsTrans(b, b1, b2);
    forall l | l in b2.labels ensures LabelStep(b, b2, ls, l) { SameLabelStep(b, b1, b2, ls, l); }
    forall i: nat | i < |b2.blocks| && !IsLabelBlock(b2, i) ensures PlainStep(b, b2, ms, extra + {|b1.blocks|}, i) {
      NewPlainStep(b, b1, b2, ms, extra, i);
    }
  }

  lemma Added(b1: Builder, b2: Builder, c: Code)
    requires BuilderOk(b1) && c.items == [] && b2.next >= b1.next
    requires b2 == b1.(blocks := b1.blocks + [c], next := b2.next)
    ensures BuilderOk(b2) && Grows(b1, b2)
    ensures forall i: nat :: IsLabelBlock(b1, i) <==> IsLabelBlock(b2, i)
    ensures forall i: nat :: Pending(b2, i) <==> Pending(b1, i) || i == |b1.blocks|
  {
    forall i: nat | i < |b2.blocks| ensures BlockOk(b2, i) {
      if i < |b1.blocks| { assert BlockOk(b1, i); }
    }
    forall j | 0 <= j < |b2.marks| ensures MarksOk(b2, b2.marks[j]) { assert MarksOk(b1, b1.marks[j]); }
  }

  lemma SameLabelStep(b: Builder, b1: Builder, b2: Builder, ls: set<nat>, l: nat)
    requires l in b2.labels && b2.labels == b1.labels && LabelStep(b, b1, ls, l)
    requires Pending(b2, b2.labels[l]) <==> Pending(b1, b1.labels[l])
    ensures LabelStep(b, b2, ls, l)
  { }

  lemma NewPlainStep(b: Builder, b1: Builder, b2: Builder, ms: set<nat>, extra: set<nat>, i: nat)
    requires |b.blocks| <= |b1.blocks|
    requires Pending(b2, i) <==> Pending(b1, i) || i == |b1.blocks|
    requires i < |b1.blocks| ==> PlainStep(b, b1, ms, extra, i)
    requires i <= |b1.blocks|
    ensures PlainStep(b, b2, ms, extra + {|b1.blocks|}, i)
  { }

  /** An instruction goes into the current block. */
  lemma ProgressInst(b: Builder, b1: Builder, ls: set<nat>, ms: set<nat>, extra: set<nat>, item: Item)
    requires BuilderOk(b) && Progress(b, b1, ls, ms, extra) && !b1.terminated && !item.Ends()
    ensures Progress(b, Emit(b1.(next := b1.next + 1), item), ls, ms, extra)
  {
    hide LabelStep, PlainStep, MarkHit;
    var b2 := Emit(b1.(next := b1.next + 1), item);
    forall i: nat | i < |b1.blocks| ensures CodeGrows(b1.blocks[i], b2.blocks[i]) && BlockOk(b2, i) {
      assert BlockOk(b1, i);
    }
    Rewritten(b1, b2);
    GrowsTrans(b, b1, b2);
    forall l | l in b2.labels ensures LabelStep(b, b2, ls, l) { SameLabelStep(b, b1, b2, ls, l); }
    forall i: nat | i < |b2.blocks| && !IsLabelBlock(b2, i) ensures PlainStep(b, b2, ms, extra, i) {
      assert PlainStep(b, b1, ms, extra, i);
      LessPlainStep(b, b1, b2, ms, extra, i, {});
      assert extra - {} == extra;
    }
  }

  lemma Rewritten(b1: Builder, b2: Builder)
    requires BuilderOk(b1) && |b2.blocks| == |b1.blocks| && b2.cur < |b2.blocks|
    requires b2.labels == b1.labels && b2.marks == b1.marks && b1.next <= b2.next
    requires forall i: nat :: i < |b1.blocks| ==> CodeGrows(b1.blocks[i], b2.blocks[i]) && BlockOk(b2, i)
    ensures BuilderOk(b2) && Grows(b1, b2)
    ensures forall i: nat :: IsLabelBlock(b1, i) <==> IsLabelBlock(b2, i)
  {
    forall j | 0 <= j < |b2.marks| ensures MarksOk(b2, b2.marks[j]) { assert MarksOk(b1, b1.marks[j]); }
  }

  lemma LessPlainStep(b: Builder, b1: Builder, b2: Builder, ms: set<nat>, extra: set<nat>, i: nat, begun: set<nat>)
    requires PlainStep(b, b1, ms, extra, i) && (Pending(b2, i) <==> Pending(b1, i) && i !in begun) && begun <= extra
    requires forall i :: i in extra ==> |b.blocks| <= i
    ensures PlainStep(b, b2, ms, extra - begun, i)
  { }

  /** The current block ends, or control had already left, and a block made
      earlier is begun. */
  lemma ProgressBegin(b: Builder, b1: Builder, ls: set<nat>, ms: set<nat>, extra: set<nat>, term: Item, bb: nat)
    requires BuilderOk(b) && Progress(b, b1, ls, ms, extra) && term.Ends() && bb in extra
    ensures Progress(b, SwitchTo(if b1.terminated then b1 else Emit(b1, term), bb), ls, ms, extra - {bb})
  {
    hide LabelStep, PlainStep, MarkHit;
    var b2 := SwitchTo(if b1.terminated then b1 else Emit(b1, term), bb);
    assert PlainStep(b, b1, ms, extra, bb);
    assert Pending(b1, bb) by { ExtraPending(b, b1, ms, extra, bb); }
    Begun(b1, b2, term, bb);
    GrowsTrans(b, b1, b2);
    forall l | l in b2.labels ensures LabelStep(b, b2, ls, l) {
      assert IsLabelBlock(b1, b1.labels[l]);
      SameLabelStep(b, b1, b2, ls, l);
    }
    forall i: nat | i < |b2.blocks| && !IsLabelBlock(b2, i) ensures PlainStep(b, b2, ms, extra - {bb}, i) {
      assert PlainStep(b, b1, ms, extra, i);
      LessPlainStep(b, b1, b2, ms, extra, i, {bb});
    }
  }

  lemma ExtraPending(b: Builder, b1: Builder, ms: set<nat>, extra: set<nat>, bb: nat)
    requires PlainStep(b, b1, ms, extra, bb) && bb in extra
    ensures Pending(b1, bb)
  { }

  lemma Begun(b1: Builder, b2: Builder, term: Item, bb: nat)
    requires BuilderOk(b1) && Pending(b1, bb) && term.Ends()
    requires b2 == SwitchTo(if b1.terminated then b1 else Emit(b1, term), bb)
    ensures BuilderOk(b2) && Grows(b1, b2)
    ensures forall i: nat :: IsLabelBlock(b1, i) <==> IsLabelBlock(b2, i)
    ensures forall i: nat :: Pending(b2, i) <==> Pending(b1, i) && i != bb
  {
    forall i: nat | i < |b1.blocks| ensures BlockOk(b2, i) {
      assert BlockOk(b1, i);
      if i == b1.cur && !b1.terminated { SealedBy(b1.blocks[i].items, term); }
    }
    Rewritten(b1, b2);
  }

  lemma SealedBy(items: seq<Item>, term: Item)
    requires AllInner(items) && term.Ends()
    ensures Sealed(items + [term])
  {
    assert (items + [term])[..|items|] == items;
  }

  /** The current block ends and nothing is begun. */
  lemma ProgressFinish(b: Builder, b1: Builder, ls: set<nat>, ms: set<nat>, extra: set<nat>, term: Item)
    requires BuilderOk(b) && Progress(b, b1, ls, ms, extra) && term.Ends() && !b1.terminated
    ensures Progress(b, Finish(b1, term), ls, ms, extra)
  {
    hide LabelStep, PlainStep, MarkHit;
    var b2 := Finish(b1, term);
    forall i: nat | i < |b1.blocks| ensures BlockOk(b2, i) {
      assert BlockOk(b1, i);
      if i == b1.cur { SealedBy(b1.blocks[i].items, term); }
    }
    Rewritten(b1, b2);
    GrowsTrans(b, b1, b2);
    forall l | l in b2.labels ensures LabelStep(b, b2, ls, l) { SameLabelStep(b, b1, b2, ls, l); }
    forall i: nat | i < |b2.blocks| && !IsLabelBlock(b2, i) ensures PlainStep(b, b2, ms, extra, i) {
      assert PlainStep(b, b1, ms, extra, i);
      LessPlainStep(b, b1, b2, ms, extra, i, {});
      assert extra - {} == extra;
    }
  }
}
