/** Blocks of instructions ended by a terminator, with block parameters, and the
    machine that runs them. */
module BlockGraph {
  import opened Wrappers
  import opened Structured

  datatype Ref = Reg(v: nat) | Lit(n: int)

  datatype Item =
    | Prim(result: nat, op: nat, args: seq<Ref>)
    | NotZero(result: nat, arg: Ref)
    | Extend(result: nat, arg: Ref)
    | Br(target: nat, brArgs: seq<Ref>)
    | CondBr(cond: Ref, ifTrue: nat, trueArgs: seq<Ref>, ifFalse: nat, falseArgs: seq<Ref>)
    | SwitchBr(scrutinee: Ref, default: nat, cases: seq<Case>)
    | Ret(value: Option<Ref>)
  {
    predicate Ends() { Br? || CondBr? || SwitchBr? || Ret? }
  }

  datatype Case = Case(constant: int, target: nat)

  datatype Code = Code(params: seq<nat>, items: seq<Item>)

  /** Where a run is, or how it ended. */
  datatype Conf =
    | At(block: nat, pos: nat, env: map<nat, int>, w: World)
    | Returned(result: Option<int>, w: World)
    | Stuck

  function Get(env: map<nat, int>, r: Ref): Option<int> {
    match r
    case Lit(n) => Some(n)
    case Reg(v) => if v in env then Some(env[v]) else None
  }

  function GetAll(env: map<nat, int>, rs: seq<Ref>): Option<seq<int>> {
    if rs == [] then Some([])
    else
      match (Get(env, rs[0]), GetAll(env, rs[1..]))
      case (Some(x), Some(xs)) => Some([x] + xs)
      case _ => None
  }

  function Bind(env: map<nat, int>, params: seq<nat>, vals: seq<int>): map<nat, int>
    requires |params| == |vals|
    decreases |params|
  {
    if params == [] then env else Bind(env[params[0] := vals[0]], params[1..], vals[1..])
  }

  /** Enter a block, its parameters bound to the edge's arguments. */
  function Enter(g: seq<Code>, target: nat, args: seq<Ref>, env: map<nat, int>, w: World): Conf {
    if target >= |g| then Stuck
    else
      match GetAll(env, args)
      case None => Stuck
      case Some(vals) =>
        if |vals| != |g[target].params| then Stuck else At(target, 0, Bind(env, g[target].params, vals), w)
  }

  function Perform(prim: Primitives, op: nat, args: seq<int>, w: World): (int, World) {
    var (r, store) := prim(op, args, w.store);
    (r, World(store, w.trace + [Event(op, args, r)]))
  }

  function Truth(n: int): int {
    if n != 0 then 1 else 0
  }

  function Selected(cases: seq<Case>, default: nat, x: int): nat {
    if cases == [] then default
    else if cases[0].constant == x then cases[0].target
    else Selected(cases[1..], default, x)
  }

  function Next(prim: Primitives, g: seq<Code>, c: Conf): Conf {
    match c
    case Returned(_, _) => c
    case Stuck => c
    case At(b, pos, env, w) =>
      if b >= |g| || pos >= |g[b].items| then Stuck
      else
        match g[b].items[pos]
        case Prim(r, op, args) =>
          (match GetAll(env, args)
           case None => Stuck
           case Some(vs) => var (x, w1) := Perform(prim, op, vs, w); At(b, pos + 1, env[r := x], w1))
        case NotZero(r, a) =>
          (match Get(env, a) case None => Stuck case Some(x) => At(b, pos + 1, env[r := Truth(x)], w))
        case Extend(r, a) =>
          (match Get(env, a) case None => Stuck case Some(x) => At(b, pos + 1, env[r := x], w))
        case Br(t, args) => Enter(g, t, args, env, w)
        case CondBr(cond, t, tArgs, f, fArgs) =>
          (match Get(env, cond)
           case None => Stuck
           case Some(x) => if x != 0 then Enter(g, t, tArgs, env, w) else Enter(g, f, fArgs, env, w))
        case SwitchBr(s, default, cases) =>
          (match Get(env, s)
           case None => Stuck
           case Some(x) => Enter(g, Selected(cases, default, x), [], env, w))
        case Ret(None) => Returned(None, w)
        case Ret(Some(v)) => (match Get(env, v) case None => Stuck case Some(x) => Returned(Some(x), w))
  }

  function Running(prim: Primitives, g: seq<Code>, c: Conf, n: nat): Conf
    decreases n
  {
    if n == 0 then c else Running(prim, g, Next(prim, g, c), n - 1)
  }

  lemma {:induction false} RunningAdds(prim: Primitives, g: seq<Code>, c: Conf, m: nat, n: nat)
    ensures Running(prim, g, c, m + n) == Running(prim, g, Running(prim, g, c, m), n)
    decreases m
  {
    if m > 0 { RunningAdds(prim, g, Next(prim, g, c), m - 1, n); }
  }
}
