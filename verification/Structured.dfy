/** Checked C statements and expressions, and what they mean: expressions by
    evaluation, statements by a small-step machine over continuations. */
module Structured {
  import opened Wrappers

  /** Storage, and every operation performed so far with its operands and result. */
  datatype World = World(store: map<int, int>, trace: seq<Event>)
  datatype Event = Event(op: nat, args: seq<int>, result: int)

  /** The primitive operations: loads, stores, calls, arithmetic. */
  type Primitives = (nat, seq<int>, map<int, int>) -> (int, map<int, int>)

  // ------------------------------------------------------------ expressions

  datatype Expr =
    | Const(n: int)
    | Op(op: nat, args: Exprs)
    | And(l: Expr, r: Expr)
    | Or(l: Expr, r: Expr)
    | Ternary(c: Expr, t: Expr, f: Expr)
    | Comma(first: Expr, second: Expr)

  datatype Exprs = NoExprs | MoreExprs(head: Expr, tail: Exprs)

  /** Operands left to right; `&&`, `||` and `?:` evaluate only what they need. */
  function Eval(prim: Primitives, e: Expr, w: World): (int, World)
    decreases e
  {
    match e
    case Const(n) => (n, w)
    case Op(op, args) =>
      var (vs, w1) := EvalArgs(prim, args, w);
      var (r, store) := prim(op, vs, w1.store);
      (r, World(store, w1.trace + [Event(op, vs, r)]))
    case And(l, r) =>
      var (x, w1) := Eval(prim, l, w);
      if x == 0 then (0, w1) else var (y, w2) := Eval(prim, r, w1); (if y != 0 then 1 else 0, w2)
    case Or(l, r) =>
      var (x, w1) := Eval(prim, l, w);
      if x != 0 then (1, w1) else var (y, w2) := Eval(prim, r, w1); (if y != 0 then 1 else 0, w2)
    case Ternary(c, t, f) =>
      var (x, w1) := Eval(prim, c, w);
      if x != 0 then Eval(prim, t, w1) else Eval(prim, f, w1)
    case Comma(first, second) =>
      Eval(prim, second, Eval(prim, first, w).1)
  }

  function EvalArgs(prim: Primitives, es: Exprs, w: World): (seq<int>, World)
    decreases es
  {
    match es
    case NoExprs => ([], w)
    case MoreExprs(e, rest) =>
      var (v, w1) := Eval(prim, e, w);
      var (vs, w2) := EvalArgs(prim, rest, w1);
      ([v] + vs, w2)
  }

  // ------------------------------------------------------------- statements

  datatype Stmt =
    | Empty
    | Do(e: Expr)
    | Block(stmts: Stmts)
    | If(cond: Expr, arm: Stmt, els: Option<Stmt>)
    | While(cond: Expr, body: Stmt)
    | DoWhile(body: Stmt, cond: Expr)
    | For(init: Option<Stmt>, test: Option<Expr>, step: Option<Expr>, body: Stmt)
    | Return(value: Option<Expr>)
    | Break
    | Continue
    | Switch(scrutinee: Expr, cases: seq<Arm>, default: Option<nat>, marks: nat, body: Stmt)
    | CaseMark(id: nat)
    | Labeled(id: nat, inner: Stmt)
    | Goto(id: nat)

  datatype Stmts = NoStmts | MoreStmts(head: Stmt, tail: Stmts)
  datatype Arm = Arm(constant: int, mark: nat)

  /** A function: whether it returns no value, and its body. */
  datatype Fn = Fn(isVoid: bool, body: Stmts)

  /** The sub-statements a compound statement runs: `part` 0, and 1 for an
      `else` or the body of a `for`. */
  predicate HasPart(s: Stmt, part: nat) {
    match s
    case If(_, _, els) => part == 0 || (part == 1 && els.Some?)
    case While(_, _) => part == 0
    case DoWhile(_, _) => part == 0
    case For(init, _, _, _) => part == 1 || (part == 0 && init.Some?)
    case Switch(_, _, _, _, _) => part == 0
    case _ => false
  }

  function Part(s: Stmt, part: nat): (r: Stmt)
    requires HasPart(s, part)
    ensures r < s
  {
    match s
    case If(_, arm, els) => if part == 0 then arm else els.value
    case While(_, body) => body
    case DoWhile(body, _) => body
    case For(init, _, _, body) => if part == 0 then init.value else body
    case Switch(_, _, _, _, body) => body
  }

  /** Is part `part` of `s` left by `break`? By `continue`? */
  predicate Breakable(s: Stmt, part: nat) {
    s.While? || s.DoWhile? || s.Switch? || (s.For? && part == 1)
  }

  predicate Continuable(s: Stmt, part: nat) {
    s.While? || s.DoWhile? || (s.For? && part == 1)
  }

  /** What remains to run: nothing, the rest of a block, or the rest of the
      statement whose part is running. */
  datatype Kont =
    | Stop
    | Rest(stmts: Stmts, k: Kont)
    | Inside(s: Stmt, part: nat, k: Kont)

  datatype State =
    | Run(s: Stmt, k: Kont, w: World)
    | Resume(k: Kont, w: World)
    | Finished(result: Option<int>, w: World)

  /** Where control goes inside a statement: to a label, or to a mark of the
      switch being entered. */
  datatype Place = AtLabel(id: nat) | AtMark(id: nat)

  /** The marked point in `s`, entered with the continuation it has there. A
      mark belongs to the innermost switch. */
  function Find(s: Stmt, p: Place, k: Kont, w: World): Option<State>
    decreases s
  {
    if s.Block? then FindIn(s.stmts, p, k, w)
    else if s.CaseMark? && p == AtMark(s.id) then Some(Resume(k, w))
    else if s.Labeled? then if p == AtLabel(s.id) then Some(Run(s.inner, k, w)) else Find(s.inner, p, k, w)
    else if s.Switch? && p.AtMark? then None
    else
      var first := if HasPart(s, 0) then Find(Part(s, 0), p, Inside(s, 0, k), w) else None;
      if first.Some? || !HasPart(s, 1) then first else Find(Part(s, 1), p, Inside(s, 1, k), w)
  }

  function FindIn(ss: Stmts, p: Place, k: Kont, w: World): Option<State>
    decreases ss
  {
    match ss
    case NoStmts => None
    case MoreStmts(s, rest) =>
      match Find(s, p, Rest(rest, k), w)
      case Some(st) => Some(st)
      case None => FindIn(rest, p, k, w)
  }

  /** The continuation after the statement a `break` leaves. */
  function BreakTo(k: Kont): Option<Kont> {
    match k
    case Stop => None
    case Rest(_, k1) => BreakTo(k1)
    case Inside(s, part, k1) => if Breakable(s, part) then Some(k1) else BreakTo(k1)
  }

  /** The loop a `continue` continues, as the continuation of its body. */
  function ContinueTo(k: Kont): Option<Kont> {
    match k
    case Stop => None
    case Rest(_, k1) => ContinueTo(k1)
    case Inside(s, part, k1) => if Continuable(s, part) then Some(k) else ContinueTo(k1)
  }

  /** The mark the first matching case names, or the default's. */
  function Chosen(cases: seq<Arm>, default: Option<nat>, x: int): Option<nat> {
    if cases == [] then default
    else if cases[0].constant == x then Some(cases[0].mark)
    else Chosen(cases[1..], default, x)
  }

  /** Test a loop's condition (absent means true): run `body` inside the loop,
      or leave it. */
  function TestLoop(prim: Primitives, test: Option<Expr>, loop: Stmt, part: nat, k: Kont, w: World): State
    requires HasPart(loop, part)
  {
    match test
    case None => Run(Part(loop, part), Inside(loop, part, k), w)
    case Some(c) =>
      var (x, w1) := Eval(prim, c, w);
      if x != 0 then Run(Part(loop, part), Inside(loop, part, k), w1) else Resume(k, w1)
  }

  /** Part `part` of `s` has run to its end. */
  function AfterPart(prim: Primitives, s: Stmt, part: nat, k: Kont, w: World): State {
    match s
    case While(c, _) => TestLoop(prim, Some(c), s, 0, k, w)
    case DoWhile(_, c) => TestLoop(prim, Some(c), s, 0, k, w)
    case For(_, test, step, _) =>
      TestLoop(prim, test, s, 1, k, if part == 1 && step.Some? then Eval(prim, step.value, w).1 else w)
    case _ => Resume(k, w)
  }

  function Jump(st: Option<State>, k: Kont, w: World): State {
    match st
    case Some(st1) => st1
    case None => Resume(k, w)
  }

  /** One step of function `fn`. A `break` or `continue` with nothing to leave
      does nothing (semantic analysis rejects such a program). */
  function Step(prim: Primitives, fn: Fn, st: State): State {
    match st
    case Finished(_, _) => st
    case Resume(Stop, w) => Finished(if fn.isVoid then None else Some(0), w)
    case Resume(Rest(NoStmts, k), w) => Resume(k, w)
    case Resume(Rest(MoreStmts(s, rest), k), w) => Run(s, Rest(rest, k), w)
    case Resume(Inside(s, part, k), w) => AfterPart(prim, s, part, k, w)
    case Run(s, k, w) =>
      match s
      case Empty => Resume(k, w)
      case Do(e) => Resume(k, Eval(prim, e, w).1)
      case Block(ss) => Resume(Rest(ss, k), w)
      case If(c, arm, els) =>
        var (x, w1) := Eval(prim, c, w);
        if x != 0 then Run(arm, Inside(s, 0, k), w1)
        else if els.Some? then Run(els.value, Inside(s, 1, k), w1)
        else Resume(k, w1)
      case While(c, _) => TestLoop(prim, Some(c), s, 0, k, w)
      case DoWhile(body, _) => Run(body, Inside(s, 0, k), w)
      case For(init, test, _, _) =>
        if init.Some? then Run(init.value, Inside(s, 0, k), w) else TestLoop(prim, test, s, 1, k, w)
      case Return(None) => Finished(None, w)
      case Return(Some(e)) => var (x, w1) := Eval(prim, e, w); Finished(Some(x), w1)
      case Break => (match BreakTo(k) case Some(k1) => Resume(k1, w) case None => Resume(k, w))
      case Continue =>
        (match ContinueTo(k)
         case Some(Inside(loop, part, k1)) => AfterPart(prim, loop, part, k1, w)
         case _ => Resume(k, w))
      case Switch(v, cases, default, _, body) =>
        var (x, w1) := Eval(prim, v, w);
        (match Chosen(cases, default, x)
         case Some(id) => Jump(Find(body, AtMark(id), Inside(s, 0, k), w1), k, w1)
         case None => Resume(k, w1))
      case CaseMark(_) => Resume(k, w)
      case Labeled(_, inner) => Run(inner, k, w)
      case Goto(id) => Jump(FindIn(fn.body, AtLabel(id), Stop, w), k, w)
  }

  function Steps(prim: Primitives, fn: Fn, st: State, n: nat): State {
    if n == 0 then st else Step(prim, fn, Steps(prim, fn, st, n - 1))
  }

  // ------------------------------------------------- what semantic analysis ensures

  /** The labels a statement defines, and the marks it holds of the switch it
      is in. */
  function Labels(s: Stmt): set<nat> {
    if s.Block? then LabelsIn(s.stmts)
    else if s.Labeled? then Labels(s.inner) + {s.id}
    else (if HasPart(s, 0) then Labels(Part(s, 0)) else {}) + (if HasPart(s, 1) then Labels(Part(s, 1)) else {})
  }

  function LabelsIn(ss: Stmts): set<nat> {
    match ss case NoStmts => {} case MoreStmts(s, rest) => Labels(s) + LabelsIn(rest)
  }

  function Marks(s: Stmt): set<nat> {
    if s.Block? then MarksIn(s.stmts)
    else if s.Labeled? then Marks(s.inner)
    else if s.CaseMark? then {s.id}
    else if s.Switch? then {}
    else (if HasPart(s, 0) then Marks(Part(s, 0)) else {}) + (if HasPart(s, 1) then Marks(Part(s, 1)) else {})
  }

  function MarksIn(ss: Stmts): set<nat> {
    match ss case NoStmts => {} case MoreStmts(s, rest) => Marks(s) + MarksIn(rest)
  }

  function UpTo(n: nat): (r: set<nat>)
    ensures forall id: nat :: id in r <==> id < n
  {
    if n == 0 then {} else UpTo(n - 1) + {n - 1}
  }

  /** A `for` header's first clause: a declaration or an expression. */
  predicate Straight(s: Stmt) {
    match s
    case Empty => true
    case Do(_) => true
    case Block(ss) => StraightIn(ss)
    case _ => false
  }

  predicate StraightIn(ss: Stmts) {
    match ss case NoStmts => true case MoreStmts(s, rest) => Straight(s) && StraightIn(rest)
  }

  /** Labels and marks are defined once, and a switch's arms name its marks. */
  predicate Checked(s: Stmt) {
    if s.Block? then CheckedIn(s.stmts)
    else if s.Labeled? then Checked(s.inner) && s.id !in Labels(s.inner)
    else
      && (HasPart(s, 0) ==> Checked(Part(s, 0)))
      && (HasPart(s, 1) ==> Checked(Part(s, 1)))
      && (HasPart(s, 0) && HasPart(s, 1) ==>
            Labels(Part(s, 0)) !! Labels(Part(s, 1)) && Marks(Part(s, 0)) !! Marks(Part(s, 1)))
      && (s.For? && s.init.Some? ==> Straight(s.init.value))
      && (s.Switch? ==> ArmsOk(s))
  }

  /** The marks of a switch are numbered from 0, each placed, and its arms name
      only those. */
  predicate ArmsOk(s: Stmt)
    requires s.Switch?
  {
    && Marks(s.body) == UpTo(s.marks)
    && (forall i :: 0 <= i < |s.cases| ==> s.cases[i].mark < s.marks)
    && (s.default.Some? ==> s.default.value < s.marks)
  }

  predicate CheckedIn(ss: Stmts) {
    match ss
    case NoStmts => true
    case MoreStmts(s, rest) =>
      Checked(s) && CheckedIn(rest) && Labels(s) !! LabelsIn(rest) && Marks(s) !! MarksIn(rest)
  }

  /** Every `goto` names a label of `labels`. */
  predicate GotosIn(s: Stmt, labels: set<nat>) {
    if s.Block? then AllGotosIn(s.stmts, labels)
    else if s.Labeled? then GotosIn(s.inner, labels)
    else if s.Goto? then s.id in labels
    else (HasPart(s, 0) ==> GotosIn(Part(s, 0), labels)) && (HasPart(s, 1) ==> GotosIn(Part(s, 1), labels))
  }

  predicate AllGotosIn(ss: Stmts, labels: set<nat>) {
    match ss case NoStmts => true case MoreStmts(s, rest) => GotosIn(s, labels) && AllGotosIn(rest, labels)
  }

  predicate CheckedFn(fn: Fn) {
    CheckedIn(fn.body) && MarksIn(fn.body) == {} && AllGotosIn(fn.body, LabelsIn(fn.body))
  }
}
