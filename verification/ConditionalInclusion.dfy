/** `#if` groups: the stack of open conditionals, and the text they let through. */
module ConditionalInclusion {
  import opened Wrappers

  /** One open conditional: is its current branch emitting, has any branch been
      taken, is the enclosing group emitting, has `#else` been seen? */
  datatype Frame = Frame(active: bool, taken: bool, parentActive: bool, seenElse: bool)

  /** A condition, told apart by `id`, and what it evaluates to. */
  datatype Condition = Condition(id: nat, holds: bool)

  /** What opens a conditional: an `#if`, or the name after an `#ifdef` (or, negated, an
      `#ifndef`), where `defined` says whether it is a macro, and is missing if there
      is no name. */
  datatype Opening = ByIf(c: Condition) | ByName(negated: bool, defined: Option<bool>)
  {
    predicate Holds() {
      match this
      case ByIf(c) => c.holds
      case ByName(negated, defined) => (defined == Some(true)) != negated
    }

    /** What is evaluated where the enclosing text is emitting. */
    function Evaluates(): seq<nat> {
      if ByIf? then [c.id] else []
    }

    /** A missing name is an error, in skipped text too. */
    function Faults(): nat {
      if ByName? && defined.None? then 1 else 0
    }
  }

  /** A line: a conditional directive or anything else. */
  datatype Line = If(o: Opening) | Elif(c: Condition) | Else | Endif | Text(text: string)

  /** The open conditionals, innermost last; the text let through; the conditions
      evaluated, in order; how many directives were in error. */
  datatype State = State(stack: seq<Frame>, out: seq<string>, evaluated: seq<nat>, errors: nat)

  predicate Active(stack: seq<Frame>) {
    stack == [] || stack[|stack| - 1].active
  }

  function Top(stack: seq<Frame>): Frame
    requires stack != []
  {
    stack[|stack| - 1]
  }

  function WithTop(stack: seq<Frame>, f: Frame): (r: seq<Frame>)
    requires stack != []
    ensures |r| == |stack| && r[..|stack| - 1] == stack[..|stack| - 1] && Top(r) == f
  {
    stack[|stack| - 1 := f]
  }

  /** The effect of one line. A condition is evaluated only if its branch could be
      taken. */
  function Step(s: State, line: Line): State {
    match line
    case Text(t) => if Active(s.stack) then s.(out := s.out + [t]) else s
    case If(o) =>
      var parent := Active(s.stack);
      var taken := parent && o.Holds();
      s.(stack := s.stack + [Frame(taken, taken, parent, false)],
         evaluated := if parent then s.evaluated + o.Evaluates() else s.evaluated,
         errors := s.errors + o.Faults())
    case Elif(c) =>
      if s.stack == [] || Top(s.stack).seenElse then s.(errors := s.errors + 1)
      else
        var f := Top(s.stack);
        if f.taken then s.(stack := WithTop(s.stack, f.(active := false, taken := true)))
        else if f.parentActive then
          s.(stack := WithTop(s.stack, f.(active := c.holds, taken := c.holds)), evaluated := s.evaluated + [c.id])
        else s.(stack := WithTop(s.stack, f.(active := false, taken := false)))
    case Else =>
      if s.stack == [] || Top(s.stack).seenElse then s.(errors := s.errors + 1)
      else
        var f := Top(s.stack);
        s.(stack := WithTop(s.stack, f.(active := f.parentActive && !f.taken, taken := true, seenElse := true)))
    case Endif => if s.stack == [] then s.(errors := s.errors + 1) else s.(stack := s.stack[..|s.stack| - 1])
  }

  function Run(s: State, lines: seq<Line>): State
    decreases |lines|
  {
    if lines == [] then s else Run(Step(s, lines[0]), lines[1..])
  }

  const START := State([], [], [], 0)

  lemma {:induction false} RunAppends(s: State, a: seq<Line>, b: seq<Line>)
    ensures Run(s, a + b) == Run(Run(s, a), b)
    decreases |a|
  {
    hide Step;
    if a == [] {
      assert a + b == b;
    } else {
      assert (a + b)[1..] == a[1..] + b;
      RunAppends(Step(s, a[0]), a[1..], b);
    }
  }

  // ---------------------------------------------------------- every sequence

  ghost predicate FrameOk(f: Frame) {
    && (f.active ==> f.taken && f.parentActive)
    && (f.seenElse ==> f.taken)
    && (f.taken && !f.seenElse ==> f.parentActive)
  }

  /** Every frame is sound, and knows whether the one below it is emitting. */
  ghost predicate StackOk(stack: seq<Frame>) {
    && (forall i :: 0 <= i < |stack| ==> FrameOk(stack[i]))
    && (forall i :: 0 <= i < |stack| ==> stack[i].parentActive == Active(stack[..i]))
  }

  lemma StepKeepsStack(s: State, line: Line)
    requires StackOk(s.stack)
    ensures StackOk(Step(s, line).stack)
  {
    hide Opening.Holds, Opening.Evaluates, Opening.Faults, StackOk;
    var new_ := Step(s, line).stack;
    if line.If? {
      PushOk(s.stack, Top(new_));
    } else if s.stack != [] {
      TopOk(s.stack);
      if line.Endif? { PopOk(s.stack); } else { RestackOk(s.stack, Top(new_)); }
    }
  }

  lemma PushOk(stack: seq<Frame>, f: Frame)
    requires StackOk(stack) && FrameOk(f) && f.parentActive == Active(stack)
    ensures StackOk(stack + [f])
  {
    var new_ := stack + [f];
    forall i | 0 <= i < |new_| ensures FrameOk(new_[i]) && new_[i].parentActive == Active(new_[..i]) {
      assert new_[..i] == stack[..i];
      if i == |stack| { assert stack[..i] == stack; }
    }
  }

  lemma TopOk(stack: seq<Frame>)
    requires StackOk(stack) && stack != []
    ensures FrameOk(Top(stack))
  { }

  lemma PopOk(stack: seq<Frame>)
    requires StackOk(stack) && stack != []
    ensures StackOk(stack[..|stack| - 1])
  {
    var new_ := stack[..|stack| - 1];
    forall i | 0 <= i < |new_| ensures FrameOk(new_[i]) && new_[i].parentActive == Active(new_[..i]) {
      assert new_[..i] == stack[..i];
    }
  }

  lemma RestackOk(stack: seq<Frame>, f: Frame)
    requires StackOk(stack) && stack != [] && FrameOk(f) && f.parentActive == Top(stack).parentActive
    ensures StackOk(WithTop(stack, f))
  {
    var new_ := WithTop(stack, f);
    forall i | 0 <= i < |new_| ensures FrameOk(new_[i]) && new_[i].parentActive == Active(new_[..i]) {
      assert new_[..i] == stack[..i];
    }
  }

  /** Over every sequence of lines, however malformed, the stack stays sound. */
  lemma {:induction false} EverySequence(s: State, lines: seq<Line>)
    requires StackOk(s.stack)
    ensures StackOk(Run(s, lines).stack)
    decreases |lines|
  {
    hide Step, StackOk;
    if lines != [] {
      StepKeepsStack(s, lines[0]);
      EverySequence(Step(s, lines[0]), lines[1..]);
    }
  }

  /** The conditional at depth `d` stays open through all of `lines`. */
  predicate StaysOpen(s: State, lines: seq<Line>, d: nat)
    decreases |lines|
  {
    |s.stack| > d && (lines == [] || StaysOpen(Step(s, lines[0]), lines[1..], d))
  }

  /** A group that has had its branch, and has moved on, emits nothing more. */
  lemma {:induction false} OneBranchOnly(s: State, lines: seq<Line>, d: nat)
    requires StackOk(s.stack) && StaysOpen(s, lines, d) && s.stack[d].taken && !s.stack[d].active
    ensures StaysOpen(s, lines, d) && |Run(s, lines).stack| > d
    ensures Run(s, lines).stack[d].taken && !Run(s, lines).stack[d].active
    decreases |lines|
  {
    hide StackOk;
    if lines != [] {
      StepKeepsStack(s, lines[0]);
      OffStaysOff(s, lines[0], d);
      OneBranchOnly(Step(s, lines[0]), lines[1..], d);
    }
  }

  lemma OffStaysOff(s: State, line: Line, d: nat)
    requires |s.stack| > d && |Step(s, line).stack| > d && s.stack[d].taken && !s.stack[d].active
    ensures Step(s, line).stack[d].taken && !Step(s, line).stack[d].active
  { }

  /** When the emitting branch of a group ends at another branch, the group has
      had its branch and has moved on. */
  lemma NextBranchIsOff(s: State, line: Line)
    requires StackOk(s.stack) && s.stack != [] && Top(s.stack).active && (line.Elif? || line.Else?) && !Top(s.stack).seenElse
    ensures var f := Top(Step(s, line).stack); f.taken && !f.active
  { }

  // ------------------------------------------------------- the structured text

  /** Text as the grammar has it: lines, and groups of branches with perhaps an
      `#else`. */
  datatype Part = Plain(text: string) | Group(o: Opening, body: seq<Part>, more: Branches)

  /** What follows a branch, up to its `#endif`. */
  datatype Branches = NoMore | Otherwise(body: seq<Part>) | Or(c: Condition, body: seq<Part>, more: Branches)

  function Lines(parts: seq<Part>): seq<Line> {
    if parts == [] then [] else PartLines(parts[0]) + Lines(parts[1..])
  }

  function PartLines(p: Part): seq<Line> {
    match p
    case Plain(t) => [Text(t)]
    case Group(o, body, more) => [If(o)] + (Lines(body) + MoreLines(more))
  }

  /** The lines after a branch. */
  function MoreLines(more: Branches): seq<Line> {
    match more
    case NoMore => [Endif]
    case Otherwise(body) => [Else] + (Lines(body) + [Endif])
    case Or(c, body, rest) => [Elif(c)] + (Lines(body) + MoreLines(rest))
  }

  /** What the text comes to, and the conditions that had to be evaluated. */
  datatype Meaning = Meaning(out: seq<string>, evaluated: seq<nat>)

  const NOTHING := Meaning([], [])

  function Join(a: Meaning, b: Meaning): Meaning {
    Meaning(a.out + b.out, a.evaluated + b.evaluated)
  }

  function Mean(parts: seq<Part>): Meaning {
    if parts == [] then Meaning([], []) else Join(PartMean(parts[0]), Mean(parts[1..]))
  }

  function PartMean(p: Part): Meaning {
    match p
    case Plain(t) => Meaning([t], [])
    case Group(ByIf(c), body, more) => Join(Meaning([], [c.id]), if c.holds then Mean(body) else Choose(more))
    case Group(ByName(false, defined), body, more) => Join(NOTHING, if defined == Some(true) then Mean(body) else Choose(more))
    case Group(ByName(true, defined), body, more) => Join(NOTHING, if defined != Some(true) then Mean(body) else Choose(more))
  }

  /** The first branch whose condition holds, else the `#else`; the conditions after
      the one that holds are not looked at. */
  function Choose(more: Branches): Meaning {
    match more
    case NoMore => Meaning([], [])
    case Otherwise(body) => Mean(body)
    case Or(c, body, rest) => Join(Meaning([], [c.id]), if c.holds then Mean(body) else Choose(rest))
  }

  /** How many `#ifdef`s and `#ifndef`s lack a name, wherever they stand. */
  function Unnamed(parts: seq<Part>): nat {
    if parts == [] then 0 else PartUnnamed(parts[0]) + Unnamed(parts[1..])
  }

  function PartUnnamed(p: Part): nat {
    match p
    case Plain(_) => 0
    case Group(o, body, more) =>
      (match o case ByName(_, None) => 1 case _ => 0) + Unnamed(body) + MoreUnnamed(more)
  }

  function MoreUnnamed(more: Branches): nat {
    match more
    case NoMore => 0
    case Otherwise(body) => Unnamed(body)
    case Or(_, body, rest) => Unnamed(body) + MoreUnnamed(rest)
  }

  /** The state after the meaning `m` was let through, with `faults` errors. */
  function Emitted(s: State, m: Meaning, faults: nat): State {
    s.(out := s.out + m.out, evaluated := s.evaluated + m.evaluated, errors := s.errors + faults)
  }

  /** What text of meaning `m` comes to, emitting or skipped. */
  function Passed(s: State, m: Meaning, faults: nat): State {
    Emitted(s, if Active(s.stack) then m else NOTHING, faults)
  }

  lemma {:induction false} PartsRun(s: State, parts: seq<Part>)
    ensures Run(s, Lines(parts)) == Passed(s, Mean(parts), Unnamed(parts))
    decreases parts
  {
    hide Step, PartLines, PartMean, PartUnnamed, Emitted;
    if parts != [] {
      PartRuns(s, parts[0]);
      RunAppends(s, PartLines(parts[0]), Lines(parts[1..]));
      var s1 := Run(s, PartLines(parts[0]));
      PartsRun(s1, parts[1..]);
      PassedTwice(s, PartMean(parts[0]), PartUnnamed(parts[0]), Mean(parts[1..]), Unnamed(parts[1..]));
    } else {
      NothingEmitted(s);
    }
  }

  lemma NothingEmitted(s: State)
    ensures Emitted(s, NOTHING, 0) == s && Join(NOTHING, NOTHING) == NOTHING
  { }

  lemma PassedTwice(s: State, a: Meaning, m: nat, b: Meaning, n: nat)
    ensures Passed(s, a, m).stack == s.stack && Passed(Passed(s, a, m), b, n) == Passed(s, Join(a, b), m + n)
  {
    hide Join;
    NothingEmitted(s);
    EmittedTwice(s, a, m, b, n);
    EmittedTwice(s, NOTHING, m, NOTHING, n);
  }

  lemma EmittedTwice(s: State, a: Meaning, m: nat, b: Meaning, n: nat)
    ensures Emitted(Emitted(s, a, m), b, n) == Emitted(s, Join(a, b), m + n)
  {
    assert s.out + a.out + b.out == s.out + (a.out + b.out);
    assert s.evaluated + a.evaluated + b.evaluated == s.evaluated + (a.evaluated + b.evaluated);
  }

  lemma {:induction false} PartRuns(s: State, p: Part)
    ensures Run(s, PartLines(p)) == Passed(s, PartMean(p), PartUnnamed(p))
    decreases p
  {
    match p
    case Plain(t) =>
      assert Run(s, [Text(t)]) == Run(Step(s, Text(t)), []);
      assert s.evaluated + [] == s.evaluated && s.out + [] == s.out;
    case Group(o, body, more) =>
      hide Choose, Mean, Lines, MoreLines, Unnamed, MoreUnnamed, Join;
      GroupMeans(o, body, more);
      var s1 := Step(s, If(o));
      OneLine(s, If(o), Lines(body) + MoreLines(more));
      RunAppends(s1, Lines(body), MoreLines(more));
      PartsRun(s1, body);
      MoreRuns(Run(s1, Lines(body)), more);
      GroupPasses(s, o, Mean(body), Unnamed(body), Choose(more), MoreUnnamed(more));
  }

  lemma GroupMeans(o: Opening, body: seq<Part>, more: Branches)
    ensures PartMean(Group(o, body, more)) == Join(Meaning([], o.Evaluates()), if o.Holds() then Mean(body) else Choose(more))
    ensures PartUnnamed(Group(o, body, more)) == o.Faults() + Unnamed(body) + MoreUnnamed(more)
  {
    hide Choose, Mean, Unnamed, MoreUnnamed, Join;
  }

  /** Opening a group, its first branch, the others and its end, put together. */
  lemma GroupPasses(s: State, o: Opening, body: Meaning, m: nat, more: Meaning, n: nat)
    ensures var s1 := Step(s, If(o)); var s2 := Passed(s1, body, m);
            Emitted(Closed(s2), if !Top(s1.stack).taken && Active(s.stack) then more else NOTHING, n)
            == Passed(s, Join(Meaning([], o.Evaluates()), if o.Holds() then body else more), o.Faults() + m + n)
  {
    hide Join, Emitted, Step, Closed, Evaluated, Opening.Holds, Opening.Evaluates, Opening.Faults;
    var on := Active(s.stack);
    var m1 := if on && o.Holds() then body else NOTHING;
    var m2 := if on && !o.Holds() then more else NOTHING;
    var ids := if on then o.Evaluates() else [];
    OpensGroup(s, o, body, m);
    EmittedTwice(Evaluated(s, ids, o.Faults()), m1, m, m2, n);
    EvaluatedFirst(s, ids, o.Faults(), Join(m1, m2), m + n);
    WithNothing(body);
    WithNothing(more);
    WithNothing(NOTHING);
  }

  lemma OpensGroup(s: State, o: Opening, body: Meaning, m: nat)
    ensures var s1 := Step(s, If(o)); var on := Active(s.stack);
            && s1.stack != [] && Top(s1.stack).taken == (on && o.Holds()) && Passed(s1, body, m).stack == s1.stack
            && Closed(Passed(s1, body, m))
               == Emitted(Evaluated(s, if on then o.Evaluates() else [], o.Faults()), if on && o.Holds() then body else NOTHING, m)
  {
    hide Opening.Holds, Opening.Evaluates, Opening.Faults;
    var s1 := Step(s, If(o));
    assert s.evaluated + [] == s.evaluated && s1.stack[..|s1.stack| - 1] == s.stack;
  }

  /** The state with conditions evaluated and errors found. */
  function Evaluated(s: State, ids: seq<nat>, faults: nat): State {
    s.(evaluated := s.evaluated + ids, errors := s.errors + faults)
  }

  lemma WithNothing(m: Meaning)
    ensures Join(m, NOTHING) == m && Join(NOTHING, m) == m
  { }

  /** The state with the innermost conditional closed. */
  function Closed(s: State): State
    requires s.stack != []
  {
    s.(stack := s.stack[..|s.stack| - 1])
  }

  lemma OneLine(s: State, line: Line, more: seq<Line>)
    ensures Run(s, [line] + more) == Run(Step(s, line), more)
  {
    hide Step;
    assert ([line] + more)[1..] == more;
  }

  lemma EvaluatedFirst(s: State, ids: seq<nat>, faults: nat, m: Meaning, n: nat)
    ensures Emitted(s, Join(Meaning([], ids), m), faults + n)
            == Emitted(Evaluated(s, ids, faults), m, n)
  {
    EmittedTwice(s, Meaning([], ids), faults, m, n);
    assert s.out + [] == s.out;
  }

  /** The rest of a group: nothing if a branch was taken or the enclosing text is
      not emitting, else the first branch that holds. */
  lemma {:induction false} MoreRuns(s: State, more: Branches)
    requires s.stack != [] && !Top(s.stack).seenElse
    ensures var f := Top(s.stack);
            Run(s, MoreLines(more)) == Emitted(Closed(s), if !f.taken && f.parentActive then Choose(more) else NOTHING, MoreUnnamed(more))
    decreases more
  {
    hide Mean, Lines, Unnamed, Join;
    var f := Top(s.stack);
    match more
    case NoMore =>
      NothingEmitted(Closed(s));
      assert Run(s, [Endif]) == Run(Step(s, Endif), []);
    case Otherwise(body) =>
      var s1 := Step(s, Else);
      OneLine(s, Else, Lines(body) + [Endif]);
      RunAppends(s1, Lines(body), [Endif]);
      PartsRun(s1, body);
      var s2 := Run(s1, Lines(body));
      assert Run(s2, [Endif]) == Run(Step(s2, Endif), []);
    case Or(c, body, rest) =>
      var s1 := Step(s, Elif(c));
      OneLine(s, Elif(c), Lines(body) + MoreLines(rest));
      RunAppends(s1, Lines(body), MoreLines(rest));
      PartsRun(s1, body);
      MoreRuns(Run(s1, Lines(body)), rest);
      OrPasses(s, c, Mean(body), Unnamed(body), Choose(rest), MoreUnnamed(rest));
  }

  lemma OrPasses(s: State, c: Condition, body: Meaning, m: nat, rest: Meaning, n: nat)
    requires s.stack != [] && !Top(s.stack).seenElse
    ensures var f := Top(s.stack); var s1 := Step(s, Elif(c)); var f1 := Top(s1.stack);
            Emitted(Closed(Passed(s1, body, m)), if !f1.taken && f1.parentActive then rest else NOTHING, n)
            == Emitted(Closed(s), if !f.taken && f.parentActive then Join(Meaning([], [c.id]), if c.holds then body else rest) else NOTHING,
                       m + n)
  {
    hide Join, Emitted, Step, Closed, Evaluated;
    var on := !Top(s.stack).taken && Top(s.stack).parentActive;
    var m1 := if on && c.holds then body else NOTHING;
    var m2 := if on && !c.holds then rest else NOTHING;
    var ids := if on then [c.id] else [];
    OpensBranch(s, c, body, m);
    EmittedTwice(Evaluated(Closed(s), ids, 0), m1, m, m2, n);
    EvaluatedFirst(Closed(s), ids, 0, Join(m1, m2), m + n);
    WithNothing(body);
    WithNothing(rest);
    WithNothing(NOTHING);
  }

  lemma OpensBranch(s: State, c: Condition, body: Meaning, m: nat)
    requires s.stack != [] && !Top(s.stack).seenElse
    ensures var f := Top(s.stack); var s1 := Step(s, Elif(c)); var on := !f.taken && f.parentActive;
            && s1.stack != [] && Passed(s1, body, m).stack == s1.stack
            && (!Top(s1.stack).taken && Top(s1.stack).parentActive <==> on && !c.holds)
            && Closed(Passed(s1, body, m))
               == Emitted(Evaluated(Closed(s), if on then [c.id] else [], 0), if on && c.holds then body else NOTHING, m)
  {
    assert s.evaluated + [] == s.evaluated;
  }

  /** Well-formed text: the machine lets through exactly what the text means,
      evaluates exactly the conditions that matter, in order, ends with no
      conditional open, and finds wrong only the missing names, skipped or not. */
  lemma WellFormedText(parts: seq<Part>)
    ensures Run(START, Lines(parts)) == State([], Mean(parts).out, Mean(parts).evaluated, Unnamed(parts))
  {
    PartsRun(START, parts);
    assert [] + Mean(parts).out == Mean(parts).out && [] + Mean(parts).evaluated == Mean(parts).evaluated;
  }

  /** Where text is emitted, an `#ifdef` lets its first branch through exactly when there
      is a name and it is a macro, an `#ifndef` exactly when not; else what follows has
      its turn. Where it is not, nothing comes of either. */
  lemma NamedGroup(s: State, negated: bool, defined: Option<bool>, body: seq<Part>, more: Branches)
    ensures var isMacro := defined.Some? && defined.value;
            var through := if isMacro != negated then Mean(body) else Choose(more);
            Run(s, PartLines(Group(ByName(negated, defined), body, more))).out
            == if Active(s.stack) then s.out + through.out else s.out
  {
    hide Run, Mean, Choose;
    PartRuns(s, Group(ByName(negated, defined), body, more));
    assert s.out + [] == s.out;
  }

  /** The arms of a group in order, the `#else` last, with whether each may be taken
      when no earlier one is. */
  function Arms(p: Part): seq<(bool, seq<Part>)>
    requires p.Group?
  {
    [(p.o.Holds(), p.body)] + MoreArms(p.more)
  }

  function MoreArms(more: Branches): seq<(bool, seq<Part>)> {
    match more
    case NoMore => []
    case Otherwise(body) => [(true, body)]
    case Or(c, body, rest) => [(c.holds, body)] + MoreArms(rest)
  }

  /** Arm `i` may be taken, and no earlier one may. */
  ghost predicate First(arms: seq<(bool, seq<Part>)>, i: nat) {
    i < |arms| && arms[i].0 && forall k :: 0 <= k < i ==> !arms[k].0
  }

  ghost predicate HasFirst(arms: seq<(bool, seq<Part>)>) {
    exists i: nat :: First(arms, i)
  }

  predicate EndsInElse(more: Branches) {
    match more
    case NoMore => false
    case Otherwise(_) => true
    case Or(_, _, rest) => EndsInElse(rest)
  }

  lemma {:induction false} FirstOfMore(more: Branches)
    ensures forall i: nat :: First(MoreArms(more), i) ==> Choose(more).out == Mean(MoreArms(more)[i].1).out
    ensures !HasFirst(MoreArms(more)) ==> Choose(more).out == []
    ensures EndsInElse(more) ==> HasFirst(MoreArms(more))
    decreases more
  {
    hide Mean, First;
    if more.Or? {
      FirstOfMore(more.more);
      assert MoreArms(more) == [(more.c.holds, more.body)] + MoreArms(more.more);
      FirstOfTwo(more.c.holds, more.body, MoreArms(more.more));
      SomeFirst(more.c.holds, more.body, MoreArms(more.more));
    } else if more.Otherwise? {
      FirstOfTwo(true, more.body, []);
      assert [(true, more.body)] + [] == MoreArms(more);
      assert First(MoreArms(more), 0);
    } else {
      FirstOfNone();
    }
  }

  lemma FirstOfNone()
    ensures forall i: nat :: !First([], i)
  { }

  lemma FirstOfTwo(holds: bool, body: seq<Part>, rest: seq<(bool, seq<Part>)>)
    ensures var arms := [(holds, body)] + rest;
            && arms[0] == (holds, body) && (First(arms, 0) <==> holds)
            && (forall i: nat :: i >= 1 ==> (First(arms, i) <==> !holds && First(rest, i - 1)))
            && (forall i: nat :: i >= 1 && First(rest, i - 1) ==> arms[i] == rest[i - 1])
            && (forall i: nat :: First(rest, i) && !holds ==> First(arms, i + 1))
  {
    var arms := [(holds, body)] + rest;
    forall i: nat | i >= 1 ensures First(arms, i) <==> !holds && First(rest, i - 1) { OneFurther(arms, rest, i); }
    forall i: nat | First(rest, i) && !holds ensures First(arms, i + 1) { OneFurther(arms, rest, i + 1); }
  }

  lemma SomeFirst(holds: bool, body: seq<Part>, rest: seq<(bool, seq<Part>)>)
    ensures HasFirst([(holds, body)] + rest) <==> holds || HasFirst(rest)
  {
    hide First;
    var arms := [(holds, body)] + rest;
    FirstOfTwo(holds, body, rest);
    if i: nat :| First(arms, i) { assert i >= 1 ==> First(rest, i - 1); }
    if holds { assert First(arms, 0); }
    else if i: nat :| First(rest, i) { assert First(arms, i + 1); }
  }

  lemma OneFurther(arms: seq<(bool, seq<Part>)>, rest: seq<(bool, seq<Part>)>, i: nat)
    requires |arms| == 1 + |rest| && arms[1..] == rest && i >= 1
    ensures First(arms, i) <==> !arms[0].0 && First(rest, i - 1)
  {
    forall k | 0 <= k < |rest| ensures rest[k] == arms[k + 1] { }
    if !arms[0].0 && First(rest, i - 1) {
      forall k | 0 <= k < i ensures !arms[k].0 { if k > 0 { assert !rest[k - 1].0; } }
    }
  }

  /** What a group lets through is the text of the first arm that may be taken;
      without one, nothing, and with an `#else` there is one. */
  lemma GroupIsFirstArm(p: Part)
    requires p.Group?
    ensures forall i: nat :: First(Arms(p), i) ==> PartMean(p).out == Mean(Arms(p)[i].1).out
    ensures !HasFirst(Arms(p)) ==> PartMean(p).out == []
    ensures EndsInElse(p.more) ==> HasFirst(Arms(p))
  {
    hide Mean, First, Choose;
    FirstOfMore(p.more);
    GroupMeans(p.o, p.body, p.more);
    assert Arms(p) == [(p.o.Holds(), p.body)] + MoreArms(p.more);
    FirstOfTwo(p.o.Holds(), p.body, MoreArms(p.more));
    SomeFirst(p.o.Holds(), p.body, MoreArms(p.more));
  }

  // --------------------------------------------- what is well-formed, exactly

  predicate Closing(line: Line) {
    line.Elif? || line.Else? || line.Endif?
  }

  /** The `#ifdef`s and `#ifndef`s among the lines that lack a name. */
  function Nameless(lines: seq<Line>): nat {
    if lines == [] then 0 else LacksName(lines[0]) + Nameless(lines[1..])
  }

  function LacksName(line: Line): nat {
    match line case If(ByName(_, None)) => 1 case _ => 0
  }

  /** From `s` on, nothing but names is missing in `lines`. */
  ghost predicate InOrder(s: State, lines: seq<Line>) {
    Run(s, lines).errors == s.errors + Nameless(lines)
  }

  lemma LineErrors(s: State, line: Line)
    ensures Step(s, line).errors >= s.errors + LacksName(line)
    ensures Closing(line) && (s.stack == [] || (Top(s.stack).seenElse && !line.Endif?)) ==>
              Step(s, line).errors > s.errors + LacksName(line)
  { }

  lemma {:induction false} ErrorsGrow(s: State, lines: seq<Line>)
    ensures Run(s, lines).errors >= s.errors + Nameless(lines)
    decreases |lines|
  {
    hide Step, LacksName;
    if lines != [] {
      LineErrors(s, lines[0]);
      ErrorsGrow(Step(s, lines[0]), lines[1..]);
    }
  }

  lemma FirstInOrder(s: State, lines: seq<Line>)
    requires lines != [] && InOrder(s, lines)
    ensures InOrder(Step(s, lines[0]), lines[1..]) && Run(s, lines) == Run(Step(s, lines[0]), lines[1..])
    ensures Closing(lines[0]) ==> s.stack != [] && (Top(s.stack).seenElse ==> lines[0].Endif?)
  {
    hide Step, LacksName;
    LineErrors(s, lines[0]);
    ErrorsGrow(Step(s, lines[0]), lines[1..]);
  }

  lemma {:induction false} NamelessAppends(a: seq<Line>, b: seq<Line>)
    ensures Nameless(a + b) == Nameless(a) + Nameless(b)
    decreases |a|
  {
    if a == [] { assert a + b == b; }
    else {
      assert (a + b)[1..] == a[1..] + b;
      NamelessAppends(a[1..], b);
    }
  }

  lemma RestInOrder(s: State, a: seq<Line>, b: seq<Line>)
    requires InOrder(s, a + b)
    ensures InOrder(Run(s, a), b) && Run(s, a + b) == Run(Run(s, a), b)
  {
    hide Run, Nameless;
    RunAppends(s, a, b);
    NamelessAppends(a, b);
    ErrorsGrow(s, a);
    ErrorsGrow(Run(s, a), b);
  }

  /** The parts that lines in order begin with, up to what closes the group they are
      in. */
  lemma {:induction false} Parses(s: State, lines: seq<Line>) returns (parts: seq<Part>, rest: seq<Line>)
    requires InOrder(s, lines) && |Run(s, lines).stack| <= |s.stack|
    ensures lines == Lines(parts) + rest && (rest != [] ==> Closing(rest[0]))
    decreases |lines|, 1
  {
    hide InOrder, Run, Step, PartLines;
    if lines == [] || Closing(lines[0]) {
      parts, rest := [], lines;
      assert lines == Lines([]) + rest;
    } else {
      var first, after := ParsesPart(s, lines);
      RestInOrder(s, PartLines(first), after);
      PartRuns(s, first);
      PartSize(first);
      var more, rest1 := Parses(Run(s, PartLines(first)), after);
      parts, rest := [first] + more, rest1;
      assert parts[0] == first && parts[1..] == more;
      assert lines == PartLines(first) + (Lines(more) + rest) == (PartLines(first) + Lines(more)) + rest;
    }
  }

  lemma PartSize(p: Part)
    ensures |PartLines(p)| > 0
  { }

  lemma {:induction false} ParsesPart(s: State, lines: seq<Line>) returns (first: Part, after: seq<Line>)
    requires lines != [] && !Closing(lines[0]) && InOrder(s, lines) && |Run(s, lines).stack| <= |s.stack|
    ensures lines == PartLines(first) + after
    decreases |lines|, 0
  {
    hide InOrder, Run, Lines, MoreLines;
    FirstInOrder(s, lines);
    match lines[0]
    case Text(t) => first, after := Plain(t), lines[1..];
    case If(o) =>
      var body, rest := ParsesBody(Step(s, If(o)), lines[1..]);
      var more;
      more, after := ParsesMore(Run(Step(s, If(o)), Lines(body)), rest);
      first := Group(o, body, more);
      assert lines == [If(o)] + (Lines(body) + (MoreLines(more) + after));
  }

  /** The body of a branch, and the line that ends it. */
  lemma {:induction false} ParsesBody(s: State, lines: seq<Line>) returns (body: seq<Part>, rest: seq<Line>)
    requires InOrder(s, lines) && |Run(s, lines).stack| < |s.stack|
    ensures lines == Lines(body) + rest && rest != [] && Closing(rest[0])
    ensures var s1 := Run(s, Lines(body)); s1.stack == s.stack && InOrder(s1, rest) && |Run(s1, rest).stack| < |s1.stack|
    decreases |lines|, 2
  {
    hide InOrder, Run, Lines;
    body, rest := Parses(s, lines);
    RestInOrder(s, Lines(body), rest);
    PartsRun(s, body);
    if rest == [] { RunNone(Run(s, Lines(body))); }
  }

  lemma RunNone(s: State)
    ensures Run(s, []) == s
  { }

  lemma {:induction false} ParsesMore(s: State, lines: seq<Line>) returns (more: Branches, after: seq<Line>)
    requires lines != [] && Closing(lines[0]) && InOrder(s, lines) && |Run(s, lines).stack| < |s.stack|
    ensures lines == MoreLines(more) + after
    decreases |lines|, 0
  {
    hide InOrder, Run, Lines;
    FirstInOrder(s, lines);
    match lines[0]
    case Endif => more, after := NoMore, lines[1..];
    case Else =>
      var body, rest := ParsesBody(Step(s, Else), lines[1..]);
      FirstInOrder(Run(Step(s, Else), Lines(body)), rest);
      more, after := Otherwise(body), rest[1..];
      assert lines == [Else] + (Lines(body) + ([Endif] + after));
    case Elif(c) =>
      var body, rest := ParsesBody(Step(s, Elif(c)), lines[1..]);
      var next;
      next, after := ParsesMore(Run(Step(s, Elif(c)), Lines(body)), rest);
      more := Or(c, body, next);
      assert lines == [Elif(c)] + (Lines(body) + (MoreLines(next) + after));
  }

  lemma {:induction false} NamelessParts(parts: seq<Part>)
    ensures Nameless(Lines(parts)) == Unnamed(parts)
    decreases parts
  {
    if parts != [] {
      NamelessAppends(PartLines(parts[0]), Lines(parts[1..]));
      NamelessPart(parts[0]);
      NamelessParts(parts[1..]);
    }
  }

  lemma {:induction false} NamelessPart(p: Part)
    ensures Nameless(PartLines(p)) == PartUnnamed(p)
    decreases p
  {
    if p.Group? {
      NamelessAppends([If(p.o)], Lines(p.body) + MoreLines(p.more));
      NamelessAppends(Lines(p.body), MoreLines(p.more));
      NamelessParts(p.body);
      NamelessMore(p.more);
    }
  }

  lemma {:induction false} NamelessMore(more: Branches)
    ensures Nameless(MoreLines(more)) == MoreUnnamed(more)
    decreases more
  {
    match more
    case NoMore =>
    case Otherwise(body) =>
      NamelessAppends([Else], Lines(body) + [Endif]);
      NamelessAppends(Lines(body), [Endif]);
      NamelessParts(body);
    case Or(c, body, rest) =>
      NamelessAppends([Elif(c)], Lines(body) + MoreLines(rest));
      NamelessAppends(Lines(body), MoreLines(rest));
      NamelessParts(body);
      NamelessMore(rest);
  }

  /** The machine finds the lines in order, and every conditional closed, exactly when
      they are the lines of some structured text. */
  lemma InOrderIffStructured(lines: seq<Line>)
    ensures InOrder(START, lines) && Run(START, lines).stack == [] <==> exists parts :: Lines(parts) == lines
  {
    hide InOrder, Run, Lines;
    if InOrder(START, lines) && Run(START, lines).stack == [] {
      var parts, rest := Parses(START, lines);
      RestInOrder(START, Lines(parts), rest);
      WellFormedText(parts);
      if rest != [] { FirstInOrder(Run(START, Lines(parts)), rest); }
      assert Lines(parts) == lines;
    }
    if parts :| Lines(parts) == lines {
      WellFormedText(parts);
      NamelessParts(parts);
      InOrderIs(START, lines);
    }
  }

  lemma InOrderIs(s: State, lines: seq<Line>)
    ensures InOrder(s, lines) <==> Run(s, lines).errors == s.errors + Nameless(lines)
  { }

  // ------------------------------------------------- branches, over any directives

  /** Does `line` begin a branch of the group at depth `d`? */
  predicate BeginsBranch(s: State, line: Line, d: nat) {
    (line.If? && |s.stack| == d) || ((line.Elif? || line.Else?) && |s.stack| == d + 1 && !Top(s.stack).seenElse)
  }

  /** How many of the branches that `lines` begin there let their text through. */
  function BranchesOn(s: State, lines: seq<Line>, d: nat): nat
    decreases |lines|
  {
    if lines == [] then 0
    else
      var s1 := Step(s, lines[0]);
      (if BeginsBranch(s, lines[0], d) && |s1.stack| > d && s1.stack[d].active then 1 else 0) + BranchesOn(s1, lines[1..], d)
  }

  /** What the frame knows after `n` branches were on: at most one, exactly one past an
      `#else` if the parent emits, and none if it does not. */
  ghost predicate Counts(f: Frame, n: nat) {
    && n <= 1 && (f.active ==> n == 1)
    && (!f.seenElse ==> (f.taken <==> n == 1))
    && (f.seenElse && f.parentActive ==> n == 1)
    && (!f.parentActive ==> n == 0)
  }

  lemma StepCounts(s: State, line: Line, d: nat, n: nat)
    requires StackOk(s.stack) && |s.stack| > d && |Step(s, line).stack| > d && Counts(s.stack[d], n)
    ensures var on := BeginsBranch(s, line, d) && Step(s, line).stack[d].active;
            Counts(Step(s, line).stack[d], n + if on then 1 else 0)
  {
    assert FrameOk(s.stack[d]);
  }

  lemma {:induction false} RunCounts(s: State, lines: seq<Line>, d: nat, n: nat)
    requires StackOk(s.stack) && StaysOpen(s, lines, d) && Counts(s.stack[d], n)
    ensures |Run(s, lines).stack| > d && Counts(Run(s, lines).stack[d], n + BranchesOn(s, lines, d))
    decreases |lines|
  {
    hide Step, StackOk, Counts, BeginsBranch;
    if lines != [] {
      var s1 := Step(s, lines[0]);
      assert |s1.stack| > d;
      StepKeepsStack(s, lines[0]);
      StepCounts(s, lines[0], d, n);
      RunCounts(s1, lines[1..], d, n + if BeginsBranch(s, lines[0], d) && s1.stack[d].active then 1 else 0);
    }
  }

  /** From any point, however malformed the lines: of the branches of the conditional
      that an `#if` opens, at most one ever lets its text through while it stays open;
      exactly one once `#else` was seen, if the enclosing text is emitting; and none
      if it is not. */
  lemma OneBranchOn(s: State, o: Opening, lines: seq<Line>)
    requires StackOk(s.stack) && StaysOpen(Step(s, If(o)), lines, |s.stack|)
    ensures var d := |s.stack|; var on := BranchesOn(s, [If(o)] + lines, d); var end := Run(s, [If(o)] + lines);
            && |end.stack| > d && on <= 1
            && (end.stack[d].seenElse && Active(s.stack) ==> on == 1)
            && (!Active(s.stack) ==> on == 0)
  {
    hide StackOk, Step, Counts, Run, BranchesOn;
    var d, s1 := |s.stack|, Step(s, If(o));
    StepKeepsStack(s, If(o));
    IfOpens(s, o, lines);
    RunCounts(s1, lines, d, if s1.stack[d].active then 1 else 0);
    ParentStays(s1, lines, d);
    CountsMean(Run(s1, lines).stack[d], BranchesOn(s, [If(o)] + lines, d));
  }

  lemma IfOpens(s: State, o: Opening, lines: seq<Line>)
    ensures var d, s1 := |s.stack|, Step(s, If(o));
            && |s1.stack| > d && s1.stack[d].parentActive == Active(s.stack)
            && Counts(s1.stack[d], if s1.stack[d].active then 1 else 0)
            && Run(s, [If(o)] + lines) == Run(s1, lines)
            && BranchesOn(s, [If(o)] + lines, d) == (if s1.stack[d].active then 1 else 0) + BranchesOn(s1, lines, d)
  {
    assert ([If(o)] + lines)[1..] == lines;
  }

  lemma CountsMean(f: Frame, n: nat)
    requires Counts(f, n)
    ensures n <= 1 && (f.seenElse && f.parentActive ==> n == 1) && (!f.parentActive ==> n == 0)
  { }

  lemma {:induction false} ParentStays(s: State, lines: seq<Line>, d: nat)
    requires StaysOpen(s, lines, d)
    ensures |Run(s, lines).stack| > d && Run(s, lines).stack[d].parentActive == s.stack[d].parentActive
    decreases |lines|
  {
    if lines != [] { ParentStays(Step(s, lines[0]), lines[1..], d); }
  }

  // -------------------------------------------------------------- the machine

  class Conditionals {
    var stack: seq<Frame>
    var out: seq<string>
    var evaluated: seq<nat>
    var errors: nat

    function St(): State
      reads this
    {
      State(stack, out, evaluated, errors)
    }

    constructor ()
      ensures St() == START
    {
      stack, out, evaluated, errors := [], [], [], 0;
    }

    method Evaluate(c: Condition) returns (holds: bool)
      modifies this`evaluated
      ensures holds == c.holds && evaluated == old(evaluated) + [c.id]
    {
      evaluated := evaluated + [c.id];
      holds := c.holds;
    }

    /** Whether the name is a macro; a missing name is an error and is none. */
    method FirstIdentDefined(name: Option<bool>) returns (isDefined: bool)
      modifies this`errors
      ensures isDefined == (name == Some(true)) && errors == old(errors) + if name.None? then 1 else 0
    {
      match name
      case Some(isMacro) => isDefined := isMacro;
      case None =>
        errors := errors + 1;
        isDefined := false;
    }

    method Handle(line: Line)
      modifies this
      ensures St() == Step(old(St()), line)
    {
      var active := Active(stack);
      match line
      case Text(t) => if active { out := out + [t]; }
      case If(ByIf(c)) =>
        var taken := false;
        if active { taken := Evaluate(c); }
        stack := stack + [Frame(taken, taken, active, false)];
      case If(ByName(negated, name)) =>
        var isDefined := FirstIdentDefined(name);
        var want := if negated then !isDefined else isDefined;
        var taken := active && want;
        stack := stack + [Frame(taken, taken, active, false)];
      case Elif(c) =>
        if stack == [] || Top(stack).seenElse {
          errors := errors + 1;
        } else {
          var f := Top(stack);
          var newActive, newTaken := false, f.taken;
          if !f.taken && f.parentActive {
            newActive := Evaluate(c);
            newTaken := newActive;
          }
          stack := WithTop(stack, f.(active := newActive, taken := newTaken));
        }
      case Else =>
        if stack == [] || Top(stack).seenElse {
          errors := errors + 1;
        } else {
          var f := Top(stack);
          stack := WithTop(stack, f.(seenElse := true, active := f.parentActive && !f.taken, taken := true));
        }
      case Endif =>
        if stack == [] { errors := errors + 1; } else { stack := stack[..|stack| - 1]; }
    }

    /** A whole file; an open conditional at its end is an error. */
    method Process(lines: seq<Line>)
      modifies this
      ensures var s := Run(old(St()), lines);
              St() == if s.stack == [] then s else s.(errors := s.errors + 1)
    {
      var i := 0;
      assert lines[0..] == lines;
      while i < |lines|
        invariant i <= |lines| && Run(St(), lines[i..]) == Run(old(St()), lines)
      {
        assert lines[i..][0] == lines[i] && lines[i..][1..] == lines[i + 1..];
        Handle(lines[i]);
        i := i + 1;
      }
      assert lines[|lines|..] == [];
      if stack != [] { errors := errors + 1; }
    }
  }
}
