/** Compound assignment to an atomic object: the emitted compare-exchange loop,
    and threads running it on one cell in any interleaving. */
module AtomicUpdate {
  import opened Wrappers

  // ----------------------------------------------------------- emitted code

  datatype Ref = Reg(v: nat) | Lit(n: int)

  datatype Inst =
    | AtomicLoad(r: nat)
    | AtomicRmw(r: nat, op: nat, arg: Ref)
    | CmpXchg(r: nat, expected: Ref, replacement: Ref)
    | Success(r: nat, seen: Ref, expected: Ref)
    | Pure(r: nat, op: nat, args: seq<Ref>)
    | Br(target: nat, brArgs: seq<Ref>)
    | CondBr(cond: Ref, ifTrue: nat, trueArgs: seq<Ref>, ifFalse: nat, falseArgs: seq<Ref>)

  datatype Block = Block(params: seq<nat>, insts: seq<Inst>)

  /** The operand of an update's operations: the value read, an earlier result,
      or a value computed before. */
  datatype Operand = Old | Result(k: nat) | Given(n: int)
  datatype PureOp = PureOp(op: nat, args: seq<Operand>)

  /** An assignment: straight-line operations on the old value, and which
      operand is the new one; or one the machine has an instruction for. */
  datatype Update = Loop(body: seq<PureOp>, result: Operand) | Direct(op: nat, arg: int)

  predicate OperandOk(o: Operand, k: nat) {
    o.Result? ==> o.k < k
  }

  predicate UpdateOk(u: Update) {
    u.Loop? ==>
      && (forall k, j :: 0 <= k < |u.body| && 0 <= j < |u.body[k].args| ==> OperandOk(u.body[k].args[j], k))
      && OperandOk(u.result, |u.body|)
  }

  /** Value 0 is the first load, 1 the loop's parameter, 2 and 3 the exit's; the
      body's results follow, then what the exchange saw and whether it worked. */
  function RefOf(o: Operand): Ref {
    match o
    case Old => Reg(1)
    case Result(k) => Reg(4 + k)
    case Given(n) => Lit(n)
  }

  function RefsOf(os: seq<Operand>): (r: seq<Ref>)
    ensures |r| == |os| && forall j :: 0 <= j < |r| ==> r[j] == RefOf(os[j])
  {
    seq(|os|, j requires 0 <= j < |os| => RefOf(os[j]))
  }

  function EmitBody(body: seq<PureOp>): (r: seq<Inst>)
    ensures |r| == |body|
    ensures forall k :: 0 <= k < |r| ==> r[k] == Pure(4 + k, body[k].op, RefsOf(body[k].args))
  {
    seq(|body|, k requires 0 <= k < |body| => Pure(4 + k, body[k].op, RefsOf(body[k].args)))
  }

  function LoopBlock(body: seq<PureOp>, result: Operand): Block {
    var seen := 4 + |body|;
    Block([1], EmitBody(body) + [CmpXchg(seen, Reg(1), RefOf(result)), Success(seen + 1, Reg(seen), Reg(1)),
                                 CondBr(Reg(seen + 1), 2, [Reg(1), RefOf(result)], 1, [Reg(seen)])])
  }

  function Emit(u: Update): seq<Block> {
    match u
    case Loop(body, result) =>
      [Block([], [AtomicLoad(0), Br(1, [Reg(0)])]), LoopBlock(body, result), Block([2, 3], [])]
    case Direct(op, arg) =>
      [Block([], [AtomicRmw(2, op, Lit(arg)), Pure(3, op, [Reg(2), Lit(arg)])])]
  }

  // ------------------------------------------------------------ the machine

  type Operations = (nat, seq<int>) -> int

  datatype Thread = Thread(block: nat, pos: nat, env: map<nat, int>)

  /** One change of the cell: who made it, what it was, what it became. */
  datatype Change = Change(thread: nat, old_: int, new_: int)

  datatype System = System(cell: int, threads: seq<Thread>, log: seq<Change>)

  function Get(env: map<nat, int>, r: Ref): int {
    match r
    case Lit(n) => n
    case Reg(v) => if v in env then env[v] else 0
  }

  function GetAll(env: map<nat, int>, rs: seq<Ref>): (r: seq<int>)
    ensures |r| == |rs| && forall j :: 0 <= j < |r| ==> r[j] == Get(env, rs[j])
  {
    seq(|rs|, j requires 0 <= j < |rs| => Get(env, rs[j]))
  }

  function Bind(env: map<nat, int>, params: seq<nat>, vals: seq<int>): map<nat, int>
    decreases |params|
  {
    if params == [] || vals == [] then env else Bind(env[params[0] := vals[0]], params[1..], vals[1..])
  }

  function Goto(code: seq<Block>, t: Thread, target: nat, args: seq<Ref>): Thread {
    if target < |code| then Thread(target, 0, Bind(t.env, code[target].params, GetAll(t.env, args))) else t
  }

  predicate Finished(code: seq<Block>, t: Thread) {
    t.block >= |code| || t.pos >= |code[t.block].insts|
  }

  /** What thread `i`, at instruction `inst`, does: its own new state, and the
      change it makes to the cell, if any. */
  function Execute(ops: Operations, code: seq<Block>, i: nat, t: Thread, inst: Inst, cell: int): (Thread, Option<Change>) {
    match inst
    case AtomicLoad(r) => (Thread(t.block, t.pos + 1, t.env[r := cell]), None)
    case AtomicRmw(r, op, arg) =>
      (Thread(t.block, t.pos + 1, t.env[r := cell]), Some(Change(i, cell, ops(op, [cell, Get(t.env, arg)]))))
    case CmpXchg(r, expected, replacement) =>
      (Thread(t.block, t.pos + 1, t.env[r := cell]),
       if cell == Get(t.env, expected) then Some(Change(i, cell, Get(t.env, replacement))) else None)
    case Success(r, seen, expected) =>
      (Thread(t.block, t.pos + 1, t.env[r := if Get(t.env, seen) == Get(t.env, expected) then 1 else 0]), None)
    case Pure(r, op, args) => (Thread(t.block, t.pos + 1, t.env[r := ops(op, GetAll(t.env, args))]), None)
    case Br(target, args) => (Goto(code, t, target, args), None)
    case CondBr(c, yes, yesArgs, no, noArgs) =>
      (if Get(t.env, c) != 0 then Goto(code, t, yes, yesArgs) else Goto(code, t, no, noArgs), None)
  }

  /** Thread `i` runs one instruction; the others wait. */
  function Step(ops: Operations, us: seq<Update>, s: System, i: nat): System
    requires |s.threads| == |us|
  {
    if i >= |us| || Finished(Emit(us[i]), s.threads[i]) then s
    else
      var code := Emit(us[i]);
      var t := s.threads[i];
      var (t1, change) := Execute(ops, code, i, t, code[t.block].insts[t.pos], s.cell);
      match change
      case None => s.(threads := s.threads[i := t1])
      case Some(c) => System(c.new_, s.threads[i := t1], s.log + [c])
  }

  function Start(n: nat, cell: int): System {
    System(cell, seq(n, _ => Thread(0, 0, map[])), [])
  }

  /** The system after the threads of `schedule` have each taken a step. */
  function Run(ops: Operations, us: seq<Update>, cell: int, schedule: seq<nat>): (s: System)
    ensures |s.threads| == |us|
  {
    if schedule == [] then Start(|us|, cell)
    else Step(ops, us, Run(ops, us, cell, schedule[..|schedule| - 1]), schedule[|schedule| - 1])
  }

  // ----------------------------------------------------- what is to be done

  function Value(results: seq<int>, old_: int, o: Operand): int {
    match o
    case Old => old_
    case Result(k) => if k < |results| then results[k] else 0
    case Given(n) => n
  }

  function Values(results: seq<int>, old_: int, os: seq<Operand>): (r: seq<int>)
    ensures |r| == |os| && forall j :: 0 <= j < |r| ==> r[j] == Value(results, old_, os[j])
  {
    seq(|os|, j requires 0 <= j < |os| => Value(results, old_, os[j]))
  }

  function Results(ops: Operations, body: seq<PureOp>, old_: int): (r: seq<int>)
    ensures |r| == |body|
  {
    if body == [] then []
    else
      var last := |body| - 1;
      var r := Results(ops, body[..last], old_);
      r + [ops(body[last].op, Values(r, old_, body[last].args))]
  }

  /** The function an assignment applies to the object. */
  function Apply(ops: Operations, u: Update, old_: int): int {
    match u
    case Loop(body, result) => Value(Results(ops, body, old_), old_, result)
    case Direct(op, arg) => ops(op, [old_, arg])
  }

  /** The object after the updates of the threads in `log`, in that order. */
  function Composed(ops: Operations, us: seq<Update>, cell: int, log: seq<Change>): int {
    if log == [] then cell
    else
      var c := log[|log| - 1];
      var before := Composed(ops, us, cell, log[..|log| - 1]);
      if c.thread < |us| then Apply(ops, us[c.thread], before) else before
  }

  /** The log is one thread's update after another, each thread's once: every
      entry starts from what the earlier ones made and applies its own update. */
  ghost predicate Sequential(ops: Operations, us: seq<Update>, cell: int, log: seq<Change>) {
    && (forall j :: 0 <= j < |log| ==>
          && log[j].thread < |us|
          && log[j].old_ == Composed(ops, us, cell, log[..j])
          && log[j].new_ == Apply(ops, us[log[j].thread], log[j].old_))
    && (forall j, k :: 0 <= j < k < |log| ==> log[j].thread != log[k].thread)
  }

  ghost predicate InLog(log: seq<Change>, i: nat) {
    exists j :: 0 <= j < |log| && log[j].thread == i
  }

  // ------------------------------------------------------------- invariants

  /** The thread is in its loop with old value `old_` and the first `k` results. */
  ghost predicate InBody(ops: Operations, u: Update, t: Thread, old_: int, k: nat)
    requires u.Loop? && k <= |u.body|
  {
    && 1 in t.env && t.env[1] == old_
    && (forall j: nat :: j < k ==> HasResult(ops, u.body, old_, t.env, j))
  }

  ghost predicate HasResult(ops: Operations, body: seq<PureOp>, old_: int, env: map<nat, int>, j: nat)
    requires j < |body|
  {
    4 + j in env && env[4 + j] == Results(ops, body, old_)[j]
  }

  /** Thread `i` and the log agree on whether its update has happened. */
  ghost predicate ThreadOk(ops: Operations, u: Update, i: nat, t: Thread, log: seq<Change>) {
    match u
    case Direct(_, _) =>
      && t.block == 0 && t.pos <= 2
      && (t.pos == 0 <==> !InLog(log, i))
      && (t.pos > 0 ==> 2 in t.env && Change(i, t.env[2], Apply(ops, u, t.env[2])) in log)
      && (t.pos == 2 ==> 3 in t.env && t.env[3] == Apply(ops, u, t.env[2]))
    case Loop(body, _) =>
      var n := |body|;
      && t.block <= 2
      && (t.block == 0 ==> t.pos <= 1 && !InLog(log, i) && (t.pos == 1 ==> 0 in t.env))
      && (t.block == 1 ==>
            && t.pos <= n + 2 && 1 in t.env
            && InBody(ops, u, t, t.env[1], if t.pos <= n then t.pos else n)
            && (t.pos <= n ==> !InLog(log, i))
            && (t.pos > n ==>
                  && 4 + n in t.env
                  && (t.env[4 + n] == t.env[1] <==> InLog(log, i))
                  && (t.env[4 + n] == t.env[1] ==> Change(i, t.env[1], Apply(ops, u, t.env[1])) in log))
            && (t.pos == n + 2 ==> 5 + n in t.env && t.env[5 + n] == (if t.env[4 + n] == t.env[1] then 1 else 0)))
      && (t.block == 2 ==>
            t.pos == 0 && 2 in t.env && 3 in t.env && t.env[3] == Apply(ops, u, t.env[2]) && Change(i, t.env[2], t.env[3]) in log)
  }

  ghost predicate Inv(ops: Operations, us: seq<Update>, cell: int, s: System) {
    && |s.threads| == |us|
    && (forall i :: 0 <= i < |us| ==> UpdateOk(us[i]))
    && Sequential(ops, us, cell, s.log)
    && s.cell == Composed(ops, us, cell, s.log)
    && (forall i: nat :: i < |us| ==> ThreadOk(ops, us[i], i, s.threads[i], s.log))
  }

  lemma {:induction false} ResultsPrefix(ops: Operations, body: seq<PureOp>, old_: int, k: nat)
    requires k <= |body|
    ensures Results(ops, body, old_)[..k] == Results(ops, body[..k], old_)
    decreases |body|
  {
    if k < |body| {
      var shorter := body[..|body| - 1];
      ResultsPrefix(ops, shorter, old_, k);
      assert shorter[..k] == body[..k];
      assert Results(ops, body, old_)[..k] == Results(ops, shorter, old_)[..k];
    } else {
      assert body[..k] == body && Results(ops, body, old_)[..k] == Results(ops, body, old_);
    }
  }

  /** Result `k` is operation `k` on results before it. */
  lemma ResultAt(ops: Operations, body: seq<PureOp>, old_: int, k: nat)
    requires k < |body| && forall j :: 0 <= j < |body[k].args| ==> OperandOk(body[k].args[j], k)
    ensures Results(ops, body, old_)[k] == ops(body[k].op, Values(Results(ops, body, old_), old_, body[k].args))
  {
    var all := Results(ops, body, old_);
    var upTo := body[..k + 1];
    ResultsPrefix(ops, body, old_, k + 1);
    ResultsPrefix(ops, body, old_, k);
    assert upTo[..k] == body[..k];
    assert all[k] == all[..k + 1][k];
    assert Values(all[..k], old_, body[k].args) == Values(all, old_, body[k].args);
  }

  lemma OperandValue(ops: Operations, u: Update, t: Thread, old_: int, k: nat, o: Operand)
    requires u.Loop? && k <= |u.body| && InBody(ops, u, t, old_, k) && OperandOk(o, k)
    ensures Get(t.env, RefOf(o)) == Value(Results(ops, u.body, old_), old_, o)
  {
    if o.Result? { assert HasResult(ops, u.body, old_, t.env, o.k); }
  }

  /** A new value past the results changes none of them. */
  lemma BodyKept(ops: Operations, u: Update, t: Thread, t1: Thread, old_: int, k: nat, r: nat, x: int)
    requires u.Loop? && k <= |u.body| && InBody(ops, u, t, old_, k) && t1.env == t.env[r := x] && r >= 4 + k
    ensures InBody(ops, u, t1, old_, k)
    ensures r == 4 + k && k < |u.body| && x == Results(ops, u.body, old_)[k] ==> InBody(ops, u, t1, old_, k + 1)
  {
    forall j: nat | j < k ensures HasResult(ops, u.body, old_, t1.env, j) {
      assert HasResult(ops, u.body, old_, t.env, j);
    }
  }

  lemma BodyStart(ops: Operations, u: Update, t: Thread, old_: int)
    requires u.Loop? && 1 in t.env && t.env[1] == old_
    ensures InBody(ops, u, t, old_, 0)
  { }

  /** The instruction at a position of the loop. */
  lemma LoopInst(u: Update, pos: nat)
    requires u.Loop? && pos < |LoopBlock(u.body, u.result).insts|
    ensures var n := |u.body|; var inst := Emit(u)[1].insts[pos];
            && |Emit(u)[1].insts| == n + 3
            && (pos < n ==> inst == Pure(4 + pos, u.body[pos].op, RefsOf(u.body[pos].args)))
            && (pos == n ==> inst == CmpXchg(4 + n, Reg(1), RefOf(u.result)))
            && (pos == n + 1 ==> inst == Success(5 + n, Reg(4 + n), Reg(1)))
            && (pos == n + 2 ==> inst == CondBr(Reg(5 + n), 2, [Reg(1), RefOf(u.result)], 1, [Reg(4 + n)]))
  { }

  lemma BindOne(env: map<nat, int>, p: nat, x: int)
    ensures Bind(env, [p], [x]) == env[p := x]
  {
    assert Bind(env[p := x], [p][1..], [x][1..]) == env[p := x];
  }

  lemma BindTwo(env: map<nat, int>, p: nat, q: nat, x: int, y: int)
    ensures Bind(env, [p, q], [x, y]) == env[p := x][q := y]
  {
    assert [p, q][1..] == [q] && [x, y][1..] == [y];
    BindOne(env[p := x], q, y);
  }

  lemma GetAllOne(env: map<nat, int>, r: Ref)
    ensures GetAll(env, [r]) == [Get(env, r)]
  { }

  lemma GetAllTwo(env: map<nat, int>, r: Ref, q: Ref)
    ensures GetAll(env, [r, q]) == [Get(env, r), Get(env, q)]
  { }

  /** What a thread's own step does to it and to the cell. */
  ghost predicate StepOk(ops: Operations, u: Update, i: nat, t1: Thread, change: Option<Change>, cell: int, log: seq<Change>) {
    match change
    case None => ThreadOk(ops, u, i, t1, log)
    case Some(c) => !InLog(log, i) && c == Change(i, cell, Apply(ops, u, cell)) && ThreadOk(ops, u, i, t1, log + [c])
  }

  lemma LastInLog(log: seq<Change>, c: Change)
    ensures InLog(log + [c], c.thread) && c in log + [c]
    ensures forall d :: d in log ==> d in log + [c]
    ensures forall i: nat :: i != c.thread ==> (InLog(log + [c], i) <==> InLog(log, i))
  {
    assert (log + [c])[|log|] == c;
    forall i: nat | i != c.thread ensures InLog(log + [c], i) <==> InLog(log, i) {
      if InLog(log, i) { var j :| 0 <= j < |log| && log[j].thread == i; assert (log + [c])[j].thread == i; }
      if InLog(log + [c], i) { var j :| 0 <= j < |log + [c]| && (log + [c])[j].thread == i; assert log[j].thread == i; }
    }
  }

  lemma DirectStep(ops: Operations, u: Update, i: nat, t: Thread, cell: int, log: seq<Change>)
    requires u.Direct? && ThreadOk(ops, u, i, t, log) && !Finished(Emit(u), t)
    ensures var (t1, change) := Execute(ops, Emit(u), i, t, Emit(u)[t.block].insts[t.pos], cell);
            StepOk(ops, u, i, t1, change, cell, log)
  {
    var inst := Emit(u)[0].insts[t.pos];
    if t.pos == 0 {
      LastInLog(log, Change(i, cell, Apply(ops, u, cell)));
    } else {
      GetAllTwo(t.env, Reg(2), Lit(u.arg));
    }
  }

  /** Before the loop, and in its straight-line part. */
  lemma BodyStep(ops: Operations, u: Update, i: nat, t: Thread, cell: int, log: seq<Change>)
    requires u.Loop? && UpdateOk(u) && ThreadOk(ops, u, i, t, log) && !Finished(Emit(u), t)
    requires t.block == 0 || t.pos < |u.body|
    ensures var (t1, change) := Execute(ops, Emit(u), i, t, Emit(u)[t.block].insts[t.pos], cell);
            StepOk(ops, u, i, t1, change, cell, log)
  {
    if t.block == 0 {
      if t.pos == 1 {
        GetAllOne(t.env, Reg(0));
        BindOne(t.env, 1, t.env[0]);
        BodyStart(ops, u, Thread(1, 0, t.env[1 := t.env[0]]), t.env[0]);
      }
    } else {
      var k, old_ := t.pos, t.env[1];
      hide Emit, Results;
      LoopInst(u, k);
      ResultAt(ops, u.body, old_, k);
      var args := u.body[k].args;
      forall j | 0 <= j < |args| ensures Get(t.env, RefOf(args[j])) == Value(Results(ops, u.body, old_), old_, args[j]) {
        OperandValue(ops, u, t, old_, k, args[j]);
      }
      assert GetAll(t.env, RefsOf(args)) == Values(Results(ops, u.body, old_), old_, args);
      var x := Results(ops, u.body, old_)[k];
      BodyKept(ops, u, t, Thread(1, k + 1, t.env[4 + k := x]), old_, k, 4 + k, x);
    }
  }

  /** The exchange succeeds exactly when the cell still holds the value read. */
  lemma ExchangeStep(ops: Operations, u: Update, i: nat, t: Thread, cell: int, log: seq<Change>)
    requires u.Loop? && UpdateOk(u) && ThreadOk(ops, u, i, t, log) && t.block == 1 && t.pos == |u.body|
    ensures var (t1, change) := Execute(ops, Emit(u), i, t, Emit(u)[1].insts[t.pos], cell);
            StepOk(ops, u, i, t1, change, cell, log)
  {
    var old_ := t.env[1];
    LoopInst(u, t.pos);
    OperandValue(ops, u, t, old_, |u.body|, u.result);
    LastInLog(log, Change(i, cell, Apply(ops, u, cell)));
    BodyKept(ops, u, t, Thread(1, t.pos + 1, t.env[4 + |u.body| := cell]), old_, |u.body|, 4 + |u.body|, cell);
  }

  /** The loop is left with the pair the exchange wrote, or goes round again
      with the value it saw. */
  lemma BranchStep(ops: Operations, u: Update, i: nat, t: Thread, cell: int, log: seq<Change>)
    requires u.Loop? && UpdateOk(u) && ThreadOk(ops, u, i, t, log) && t.block == 1 && |u.body| < t.pos <= |u.body| + 2
    ensures var (t1, change) := Execute(ops, Emit(u), i, t, Emit(u)[1].insts[t.pos], cell);
            StepOk(ops, u, i, t1, change, cell, log)
  {
    var old_, n := t.env[1], |u.body|;
    LoopInst(u, t.pos);
    if t.pos == n + 2 {
      OperandValue(ops, u, t, old_, n, u.result);
      GetAllTwo(t.env, Reg(1), RefOf(u.result));
      BindTwo(t.env, 2, 3, old_, Apply(ops, u, old_));
      GetAllOne(t.env, Reg(4 + n));
      BindOne(t.env, 1, t.env[4 + n]);
      BodyStart(ops, u, Thread(1, 0, t.env[1 := t.env[4 + n]]), t.env[4 + n]);
    } else {
      var ok := if t.env[4 + n] == old_ then 1 else 0;
      BodyKept(ops, u, t, Thread(1, t.pos + 1, t.env[5 + n := ok]), old_, n, 5 + n, ok);
    }
  }

  lemma ThreadStep(ops: Operations, u: Update, i: nat, t: Thread, cell: int, log: seq<Change>)
    requires UpdateOk(u) && ThreadOk(ops, u, i, t, log) && !Finished(Emit(u), t)
    ensures var (t1, change) := Execute(ops, Emit(u), i, t, Emit(u)[t.block].insts[t.pos], cell);
            StepOk(ops, u, i, t1, change, cell, log)
  {
    hide StepOk, Execute, UpdateOk;
    if u.Direct? { DirectStep(ops, u, i, t, cell, log); }
    else if t.block == 0 || t.pos < |u.body| { BodyStep(ops, u, i, t, cell, log); }
    else if t.pos == |u.body| { ExchangeStep(ops, u, i, t, cell, log); }
    else { BranchStep(ops, u, i, t, cell, log); }
  }

  /** A change by another thread leaves a thread as it was. */
  lemma OthersOk(ops: Operations, u: Update, i: nat, t: Thread, log: seq<Change>, c: Change)
    requires ThreadOk(ops, u, i, t, log) && c.thread != i
    ensures ThreadOk(ops, u, i, t, log + [c])
  {
    hide InBody, Apply;
    LastInLog(log, c);
  }

  lemma SequentialGrows(ops: Operations, us: seq<Update>, cell: int, log: seq<Change>, c: Change)
    requires Sequential(ops, us, cell, log) && c.thread < |us| && !InLog(log, c.thread)
    requires c.old_ == Composed(ops, us, cell, log) && c.new_ == Apply(ops, us[c.thread], c.old_)
    ensures Sequential(ops, us, cell, log + [c]) && Composed(ops, us, cell, log + [c]) == c.new_
  {
    hide Apply, Composed;
    var log1 := log + [c];
    ComposedNext(ops, us, cell, log, c);
    forall j | 0 <= j < |log1|
      ensures log1[j].old_ == Composed(ops, us, cell, log1[..j]) && log1[j].new_ == Apply(ops, us[log1[j].thread], log1[j].old_)
    {
      assert log1[..j] == log[..j];
      if j == |log| { assert log[..j] == log; }
    }
  }

  lemma ComposedNext(ops: Operations, us: seq<Update>, cell: int, log: seq<Change>, c: Change)
    requires c.thread < |us|
    ensures Composed(ops, us, cell, log + [c]) == Apply(ops, us[c.thread], Composed(ops, us, cell, log))
  {
    hide Apply;
    assert (log + [c])[..|log|] == log;
  }

  lemma {:induction false} StepKeepsInv(ops: Operations, us: seq<Update>, cell: int, s: System, i: nat)
    requires Inv(ops, us, cell, s)
    ensures Inv(ops, us, cell, Step(ops, us, s, i))
  {
    hide UpdateOk, ThreadOk, Execute, Sequential, Composed, Apply;
    if i < |us| && !Finished(Emit(us[i]), s.threads[i]) {
      var code, t := Emit(us[i]), s.threads[i];
      ThreadStep(ops, us[i], i, t, s.cell, s.log);
      var (t1, change) := Execute(ops, code, i, t, code[t.block].insts[t.pos], s.cell);
      if change.Some? {
        SequentialGrows(ops, us, cell, s.log, change.value);
        forall j: nat | j < |us| && j != i ensures ThreadOk(ops, us[j], j, s.threads[j], s.log + [change.value]) {
          OthersOk(ops, us[j], j, s.threads[j], s.log, change.value);
        }
      }
    }
  }

  lemma StartInv(ops: Operations, us: seq<Update>, cell: int)
    requires forall i :: 0 <= i < |us| ==> UpdateOk(us[i])
    ensures Inv(ops, us, cell, Start(|us|, cell))
  {
    hide Apply, UpdateOk;
  }

  /** In every interleaving, at every moment: the cell holds the composition of
      the updates done so far, in the order their exchanges succeeded, each
      applied to what the one before left. */
  lemma {:induction false} EveryInterleaving(ops: Operations, us: seq<Update>, cell: int, schedule: seq<nat>)
    requires forall i :: 0 <= i < |us| ==> UpdateOk(us[i])
    ensures Inv(ops, us, cell, Run(ops, us, cell, schedule))
    decreases |schedule|
  {
    hide Inv, UpdateOk, Step;
    if schedule == [] {
      StartInv(ops, us, cell);
    } else {
      EveryInterleaving(ops, us, cell, schedule[..|schedule| - 1]);
      StepKeepsInv(ops, us, cell, Run(ops, us, cell, schedule[..|schedule| - 1]), schedule[|schedule| - 1]);
    }
  }

  /** What a finished thread's assignment gives: the old and the new value. */
  function Returned(t: Thread): (int, int) {
    (Get(t.env, Reg(2)), Get(t.env, Reg(3)))
  }

  predicate AllFinished(us: seq<Update>, s: System)
    requires |s.threads| == |us|
  {
    forall i :: 0 <= i < |us| ==> Finished(Emit(us[i]), s.threads[i])
  }

  lemma FinishedReturned(ops: Operations, u: Update, i: nat, t: Thread, log: seq<Change>)
    requires ThreadOk(ops, u, i, t, log) && Finished(Emit(u), t)
    ensures Change(i, Returned(t).0, Returned(t).1) in log
  {
    hide InBody, Apply;
  }

  /** No update is lost: once all threads are done, each thread's update is in
      the log exactly once with the pair the thread returned, and the cell is
      the composition of all of them. */
  lemma NoUpdateLost(ops: Operations, us: seq<Update>, cell: int, schedule: seq<nat>)
    requires forall i :: 0 <= i < |us| ==> UpdateOk(us[i])
    requires AllFinished(us, Run(ops, us, cell, schedule))
    ensures var s := Run(ops, us, cell, schedule);
            && Sequential(ops, us, cell, s.log) && s.cell == Composed(ops, us, cell, s.log)
            && |s.log| == |us|
            && forall i: nat :: i < |us| ==> Change(i, Returned(s.threads[i]).0, Returned(s.threads[i]).1) in s.log
  {
    hide UpdateOk, ThreadOk, Composed, Apply, Finished, Run, Returned;
    EveryInterleaving(ops, us, cell, schedule);
    var s := Run(ops, us, cell, schedule);
    forall i: nat | i < |us| ensures Change(i, Returned(s.threads[i]).0, Returned(s.threads[i]).1) in s.log {
      FinishedReturned(ops, us[i], i, s.threads[i], s.log);
    }
    forall i: nat | i < |us| ensures InLog(s.log, i) {
      ChangeInLog(s.log, Change(i, Returned(s.threads[i]).0, Returned(s.threads[i]).1));
    }
    EachOnce(s.log, |us|);
  }

  lemma ChangeInLog(log: seq<Change>, c: Change)
    requires c in log
    ensures InLog(log, c.thread)
  {
    var j :| 0 <= j < |log| && log[j] == c;
  }

  /** Distinct threads below `n`, all of them present: there are `n`. */
  lemma EachOnce(log: seq<Change>, n: nat)
    requires forall j :: 0 <= j < |log| ==> log[j].thread < n
    requires forall j, k :: 0 <= j < k < |log| ==> log[j].thread != log[k].thread
    requires forall i: nat :: i < n ==> InLog(log, i)
    ensures |log| == n
  {
    var seen := Threads(log);
    ThreadsSize(log);
    var all := UpTo(n);
    forall i: nat ensures i in seen <==> i in all { }
    assert seen == all;
  }

  ghost function Threads(log: seq<Change>): (r: set<nat>)
    ensures forall i: nat :: i in r <==> InLog(log, i)
  {
    set j | 0 <= j < |log| :: log[j].thread
  }

  ghost function UpTo(n: nat): (r: set<nat>)
    ensures |r| == n && forall i: nat :: i in r <==> i < n
  {
    if n == 0 then {} else UpTo(n - 1) + {n - 1}
  }

  lemma {:induction false} ThreadsSize(log: seq<Change>)
    requires forall j, k :: 0 <= j < k < |log| ==> log[j].thread != log[k].thread
    ensures |Threads(log)| == |log|
    decreases |log|
  {
    if log == [] {
      assert Threads(log) == {};
    } else {
      var front, last := log[..|log| - 1], log[|log| - 1];
      ThreadsSize(front);
      assert log == front + [last];
      OneMore(front, last);
      assert !InLog(front, last.thread);
    }
  }

  lemma OneMore(front: seq<Change>, last: Change)
    ensures Threads(front + [last]) == Threads(front) + {last.thread}
  {
    hide Threads;
    LastInLog(front, last);
    forall i: nat ensures i in Threads(front + [last]) <==> i in Threads(front) + {last.thread} { }
  }

  // ------------------------------------------------------------- every run ends

  /** Once round the loop. */
  function Round(u: Update): nat {
    if u.Loop? then |u.body| + 3 else 0
  }

  /** How many more steps a thread takes if the cell stays as it is. */
  function Remaining(u: Update, t: Thread, cell: int): nat {
    var round := Round(u);
    if u.Direct? then if t.pos < 2 then 2 - t.pos else 0
    else if t.block == 0 then
      if t.pos == 0 then 2 + round else 1 + round + (if Get(t.env, Reg(0)) == cell then 0 else round)
    else if t.block == 1 && t.pos < round then
      var seen := Get(t.env, Reg(4 + |u.body|));
      round - t.pos +
      (if t.pos <= |u.body| then if Get(t.env, Reg(1)) == cell then 0 else round
       else if seen == Get(t.env, Reg(1)) then 0
       else round + (if seen == cell then 0 else round))
    else 0
  }

  function Most(u: Update): nat {
    3 * Round(u) + 2
  }

  lemma RemainingBound(u: Update, t: Thread, cell: int)
    ensures Remaining(u, t, cell) <= Most(u)
  { }

  /** A step that leaves the cell alone is one fewer to take. */
  lemma StepRemains(ops: Operations, u: Update, i: nat, t: Thread, cell: int, log: seq<Change>)
    requires UpdateOk(u) && ThreadOk(ops, u, i, t, log) && !Finished(Emit(u), t)
    ensures var (t1, change) := Execute(ops, Emit(u), i, t, Emit(u)[t.block].insts[t.pos], cell);
            change.None? ==> Remaining(u, t1, cell) < Remaining(u, t, cell)
  {
    hide UpdateOk, InBody, Apply;
    if u.Loop? {
      if t.block == 0 && t.pos == 1 {
        GetAllOne(t.env, Reg(0));
        BindOne(t.env, 1, t.env[0]);
      } else if t.block == 1 {
        LoopInst(u, t.pos);
        if t.pos == |u.body| + 2 {
          GetAllOne(t.env, Reg(4 + |u.body|));
          BindOne(t.env, 1, t.env[4 + |u.body|]);
        }
      }
    }
  }

  function SumRemaining(us: seq<Update>, ts: seq<Thread>, cell: int, n: nat): nat
    requires n <= |us| == |ts|
  {
    if n == 0 then 0 else SumRemaining(us, ts, cell, n - 1) + Remaining(us[n - 1], ts[n - 1], cell)
  }

  function SumMost(us: seq<Update>, n: nat): nat
    requires n <= |us|
  {
    if n == 0 then 0 else SumMost(us, n - 1) + Most(us[n - 1])
  }

  lemma {:induction false} SumBound(us: seq<Update>, ts: seq<Thread>, cell: int, n: nat)
    requires n <= |us| == |ts|
    ensures SumRemaining(us, ts, cell, n) <= SumMost(us, n)
  {
    if n > 0 {
      SumBound(us, ts, cell, n - 1);
      RemainingBound(us[n - 1], ts[n - 1], cell);
    }
  }

  lemma {:induction false} SumChanged(us: seq<Update>, ts: seq<Thread>, cell: int, n: nat, i: nat, t1: Thread)
    requires n <= |us| == |ts| && i < |us|
    ensures SumRemaining(us, ts[i := t1], cell, n)
            == SumRemaining(us, ts, cell, n) + (if i < n then Remaining(us[i], t1, cell) - Remaining(us[i], ts[i], cell) else 0)
  {
    hide Remaining;
    if n > 0 { SumChanged(us, ts, cell, n - 1, i, t1); }
  }

  /** Steps left at most: those with the cell as it is, and for every update
      still to happen, all that its change of the cell may cost the others. */
  function Fuel(us: seq<Update>, s: System): int
    requires |s.threads| == |us|
  {
    SumRemaining(us, s.threads, s.cell, |us|) + (|us| - |s.log|) * (SumMost(us, |us|) + 1)
  }

  lemma StepBurns(ops: Operations, us: seq<Update>, cell: int, s: System, i: nat)
    requires Inv(ops, us, cell, s) && i < |us| && !Finished(Emit(us[i]), s.threads[i])
    ensures Fuel(us, Step(ops, us, s, i)) < Fuel(us, s)
  {
    hide ThreadOk, Sequential, Composed, UpdateOk, Execute, Remaining, Most;
    var code, t := Emit(us[i]), s.threads[i];
    var (t1, change) := Execute(ops, code, i, t, code[t.block].insts[t.pos], s.cell);
    if change.None? {
      StepRemains(ops, us[i], i, t, s.cell, s.log);
      SumChanged(us, s.threads, s.cell, |us|, i, t1);
    } else {
      var s1 := Step(ops, us, s, i);
      SumBound(us, s1.threads, s1.cell, |us|);
      var p, m := |us| - |s.log|, SumMost(us, |us|) + 1;
      assert |s1.log| == |s.log| + 1;
      assert (p - 1) * m == p * m - m;
    }
  }

  lemma {:induction false} LogBound(ops: Operations, us: seq<Update>, cell: int, s: System)
    requires Inv(ops, us, cell, s)
    ensures |s.log| <= |us|
  {
    hide ThreadOk, Composed, UpdateOk, Apply;
    ThreadsSize(s.log);
    assert Threads(s.log) <= UpTo(|us|);
    SubsetSize(Threads(s.log), UpTo(|us|));
  }

  lemma {:induction false} SubsetSize(a: set<nat>, b: set<nat>)
    requires a <= b
    ensures |a| <= |b|
  {
    if a != {} {
      var x :| x in a;
      SubsetSize(a - {x}, b - {x});
    }
  }

  /** Every step of the schedule is taken by a thread that is not done. */
  ghost predicate Productive(ops: Operations, us: seq<Update>, cell: int, schedule: seq<nat>) {
    forall k :: 0 <= k < |schedule| ==> Takes(ops, us, cell, schedule, k)
  }

  ghost predicate Takes(ops: Operations, us: seq<Update>, cell: int, schedule: seq<nat>, k: nat)
    requires k < |schedule|
  {
    schedule[k] < |us| && !Finished(Emit(us[schedule[k]]), Run(ops, us, cell, schedule[..k]).threads[schedule[k]])
  }

  /** The loops are lock-free, and with finitely many threads they all end: no
      interleaving, fair or not, has more steps than this. */
  lemma {:induction false} EveryRunEnds(ops: Operations, us: seq<Update>, cell: int, schedule: seq<nat>)
    requires forall i :: 0 <= i < |us| ==> UpdateOk(us[i])
    requires Productive(ops, us, cell, schedule)
    ensures |schedule| + Fuel(us, Run(ops, us, cell, schedule)) <= Fuel(us, Start(|us|, cell))
    ensures |schedule| <= Fuel(us, Start(|us|, cell))
    decreases |schedule|
  {
    hide UpdateOk, Inv, Finished, Step, Fuel;
    if schedule != [] {
      var last := |schedule| - 1;
      var front := schedule[..last];
      forall k | 0 <= k < |front| ensures Takes(ops, us, cell, front, k) {
        assert Takes(ops, us, cell, schedule, k) && front[..k] == schedule[..k];
      }
      EveryRunEnds(ops, us, cell, front);
      assert Takes(ops, us, cell, schedule, last);
      EveryInterleaving(ops, us, cell, front);
      StepBurns(ops, us, cell, Run(ops, us, cell, front), schedule[last]);
    }
    EveryInterleaving(ops, us, cell, schedule);
    LogBound(ops, us, cell, Run(ops, us, cell, schedule));
    FuelPositive(us, Run(ops, us, cell, schedule));
  }

  lemma FuelPositive(us: seq<Update>, s: System)
    requires |s.threads| == |us| && |s.log| <= |us|
    ensures Fuel(us, s) >= 0
  {
    var p, m := |us| - |s.log|, SumMost(us, |us|) + 1;
    assert p * m >= 0;
  }
}
