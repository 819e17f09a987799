/** Expansion of object-like macros with hide sets. */
module MacroExpansion {

  datatype Kind =
    | Ident(name: string)
    | Number(text: string)
    | Str(text: string)
    | LParen
    | RParen
    | HashHash
    | Placemarker
    | Other(text: string)

  /** A token, the macros it must not be expanded as, and where it stands. */
  datatype Tok = Tok(kind: Kind, hide_: set<string>, line: int, file: nat)

  /** The object-like macros, what the special names stand for, and how two
      spellings lex when put together. */
  datatype Env = Env(macros: map<string, seq<Tok>>, lineDelta: int, fileText: nat -> string, includeLevel: nat,
                     lexPair: (Kind, Kind) -> Kind)

  const LIMIT := 5_000_000

  function Decimal(n: nat): string {
    if n < 10 then [('0' as int + n) as char] else Decimal(n / 10) + Decimal(n % 10)
  }

  // ------------------------------------------------------------ substitution

  function PasteTokens(env: Env, a: Tok, b: Tok, inv: Tok): Tok {
    Tok(env.lexPair(a.kind, b.kind), a.hide_ * b.hide_, inv.line, inv.file)
  }

  /** `##`: join the last token so far with the next; a placemarker joins to
      the other operand. */
  function PasteInto(env: Env, res: seq<Tok>, next: Tok, inv: Tok): (r: seq<Tok>)
    ensures |r| <= |res| + 1
  {
    if res == [] then [next]
    else
      var init, last := res[..|res| - 1], res[|res| - 1];
      if next.kind.Placemarker? then if last.kind.Placemarker? then init else res
      else if last.kind.Placemarker? then init + [next]
      else init + [PasteTokens(env, last, next, inv)]
  }

  function Pasted(env: Env, body: seq<Tok>, inv: Tok, i: nat, res: seq<Tok>): (r: seq<Tok>)
    requires i <= |body|
    ensures |r| <= |res| + |body| - i
    decreases |body| - i
  {
    if i == |body| then res
    else if body[i].kind.HashHash? && i + 1 < |body| then Pasted(env, body, inv, i + 2, PasteInto(env, res, body[i + 1], inv))
    else Pasted(env, body, inv, i + 1, res + [body[i]])
  }

  /** Give the tokens of a replacement the hide set and place of the call, and
      drop placemarkers. */
  function Painted(toks: seq<Tok>, hs: set<string>, inv: Tok): (r: seq<Tok>)
    ensures |r| <= |toks|
    ensures forall k :: 0 <= k < |r| ==> hs <= r[k].hide_ && !r[k].kind.Placemarker?
  {
    if toks == [] then []
    else
      (if toks[0].kind.Placemarker? then []
       else [Tok(toks[0].kind, toks[0].hide_ + hs, inv.line, inv.file)]) + Painted(toks[1..], hs, inv)
  }

  lemma PaintedFrom(toks: seq<Tok>, k: nat, hs: set<string>, inv: Tok)
    requires k < |toks|
    ensures Painted(toks[k..], hs, inv)
            == (if toks[k].kind.Placemarker? then [] else [Tok(toks[k].kind, toks[k].hide_ + hs, inv.line, inv.file)])
               + Painted(toks[k + 1..], hs, inv)
  {
    assert toks[k..][0] == toks[k] && toks[k..][1..] == toks[k + 1..];
  }

  lemma PaintedNone(hs: set<string>, inv: Tok)
    ensures Painted([], hs, inv) == []
  { }

  function Replacement(env: Env, t: Tok): (r: seq<Tok>)
    requires t.kind.Ident? && t.kind.name in env.macros
    ensures |r| <= |env.macros[t.kind.name]|
    ensures forall k :: 0 <= k < |r| ==> t.hide_ + {t.kind.name} <= r[k].hide_
  {
    Painted(Pasted(env, env.macros[t.kind.name], t, 0, []), t.hide_ + {t.kind.name}, t)
  }

  // ------------------------------------------------------------ one iteration

  predicate Special(name: string) {
    name == "__LINE__" || name == "__FILE__" || name == "__COUNTER__" || name == "__INCLUDE_LEVEL__"
  }

  /** `_Pragma ( "…" )` at the front. */
  predicate PragmaAt(input: seq<Tok>) {
    && |input| >= 4 && input[0].kind == Ident("_Pragma")
    && input[1].kind.LParen? && input[2].kind.Str? && input[3].kind.RParen?
  }

  function SpecialKind(env: Env, t: Tok, counter: nat): Kind
    requires t.kind.Ident? && Special(t.kind.name)
  {
    var name := t.kind.name;
    if name == "__LINE__" then Number(Decimal(if t.line + env.lineDelta < 0 then 0 else t.line + env.lineDelta))
    else if name == "__FILE__" then Str(env.fileText(t.file))
    else if name == "__COUNTER__" then Number(Decimal(counter))
    else Number(Decimal(env.includeLevel))
  }

  predicate Live(t: Tok) {
    t.kind.Ident? && t.kind.name !in t.hide_
  }

  datatype Iteration = Iteration(emitted: seq<Tok>, input: seq<Tok>, counter: nat)

  /** Take the front token: emit it, or put its replacement back in front. */
  function Iterate(env: Env, input: seq<Tok>, counter: nat): Iteration
    requires input != []
  {
    var t, rest := input[0], input[1..];
    if !Live(t) then Iteration([t], rest, counter)
    else if Special(t.kind.name) then
      Iteration([t.(kind := SpecialKind(env, t, counter))], rest, if t.kind.name == "__COUNTER__" then counter + 1 else counter)
    else if PragmaAt(input) then Iteration([], input[4..], counter)
    else if t.kind.name in env.macros then Iteration([], Replacement(env, t) + rest, counter)
    else Iteration([t], rest, counter)
  }

  // -------------------------------------------------------------- termination

  /** The length of the longest replacement list. */
  ghost function Longest(m: map<string, seq<Tok>>): (r: nat)
    ensures forall name :: name in m ==> |m[name]| <= r
  {
    if m == map[] then 0
    else
      var name :| name in m;
      var rest := Longest(m - {name});
      assert forall other :: other in m && other != name ==> other in m - {name} && (m - {name})[other] == m[other];
      if |m[name]| > rest then |m[name]| else rest
  }

  /** What a token can still cost when `n` macros are left for it. */
  ghost function Budget(longest: nat, n: nat): (r: nat)
    ensures r >= 1
  {
    if n == 0 then 1 else 1 + longest * Budget(longest, n - 1)
  }

  ghost function Cost(env: Env, input: seq<Tok>): nat {
    if input == [] then 0
    else Budget(Longest(env.macros), |env.macros.Keys - input[0].hide_|) + Cost(env, input[1..])
  }

  lemma {:induction false} BudgetGrows(longest: nat, m: nat, n: nat)
    requires m <= n
    ensures Budget(longest, m) <= Budget(longest, n)
    decreases n
  {
    if m < n {
      if n == m + 1 && m == 0 {
      } else if m == 0 {
        BudgetGrows(longest, 0, n - 1);
      } else {
        BudgetGrows(longest, m - 1, n - 1);
        Scaled(longest, Budget(longest, m - 1), Budget(longest, n - 1));
      }
    }
  }

  lemma Scaled(a: nat, x: nat, y: nat)
    requires x <= y
    ensures a * x <= a * y
  { }

  lemma {:induction false} CostAppends(env: Env, a: seq<Tok>, b: seq<Tok>)
    ensures Cost(env, a + b) == Cost(env, a) + Cost(env, b)
  {
    if a == [] {
      assert a + b == b;
    } else {
      assert (a + b)[1..] == a[1..] + b;
      CostAppends(env, a[1..], b);
    }
  }

  lemma {:induction false} CostBound(env: Env, toks: seq<Tok>, n: nat)
    requires forall k :: 0 <= k < |toks| ==> |env.macros.Keys - toks[k].hide_| <= n
    ensures Cost(env, toks) <= |toks| * Budget(Longest(env.macros), n)
  {
    hide Budget, Longest;
    var each := Budget(Longest(env.macros), n);
    if toks != [] {
      BudgetGrows(Longest(env.macros), |env.macros.Keys - toks[0].hide_|, n);
      CostBound(env, toks[1..], n);
      OneFewer(|toks|, each);
    }
  }

  lemma OneFewer(k: nat, each: nat)
    requires k > 0
    ensures k * each == each + (k - 1) * each
  { }

  /** Tokens from a replacement have one macro fewer left. */
  lemma FewerLeft(keys: set<string>, hs: set<string>, name: string, hs1: set<string>)
    requires name in keys && name !in hs && hs + {name} <= hs1
    ensures |keys - hs1| <= |keys - hs| - 1
  {
    assert keys - hs1 <= keys - hs - {name};
    SubsetSize(keys - hs1, keys - hs - {name});
  }

  lemma {:induction false} SubsetSize(a: set<string>, b: set<string>)
    requires a <= b
    ensures |a| <= |b|
  {
    if a != {} {
      var x :| x in a;
      SubsetSize(a - {x}, b - {x});
    }
  }

  lemma {:induction false} CostDrops(env: Env, input: seq<Tok>, k: nat)
    requires k <= |input|
    ensures Cost(env, input[k..]) <= Cost(env, input)
  {
    if k > 0 {
      assert input[k..] == input[1..][k - 1..];
      CostDrops(env, input[1..], k - 1);
    }
  }

  /** Every iteration costs something. */
  lemma IterationCosts(env: Env, input: seq<Tok>, counter: nat)
    requires input != []
    ensures Cost(env, Iterate(env, input, counter).input) < Cost(env, input)
  {
    hide Replacement, Decimal, SpecialKind;
    var t, rest := input[0], input[1..];
    if Live(t) && !Special(t.kind.name) {
      if PragmaAt(input) {
        assert input[4..] == rest[3..];
        CostDrops(env, rest, 3);
      } else if t.kind.name in env.macros {
        ReplacementCosts(env, t);
        CostAppends(env, Replacement(env, t), rest);
      }
    }
  }

  lemma ReplacementCosts(env: Env, t: Tok)
    requires Live(t) && t.kind.name in env.macros
    ensures Cost(env, Replacement(env, t)) < Budget(Longest(env.macros), |env.macros.Keys - t.hide_|)
  {
    hide Replacement, Longest, Cost;
    var repl := Replacement(env, t);
    var keys := env.macros.Keys;
    assert t.kind.name in keys - t.hide_;
    var n := |keys - t.hide_|;
    forall k | 0 <= k < |repl| ensures |keys - repl[k].hide_| <= n - 1 {
      FewerLeft(keys, t.hide_, t.kind.name, repl[k].hide_);
    }
    CostBound(env, repl, n - 1);
    Scaled2(|repl|, Longest(env.macros), Budget(Longest(env.macros), n - 1));
  }

  lemma Scaled2(x: nat, y: nat, a: nat)
    requires x <= y
    ensures x * a <= y * a
  { }

  /** The whole expansion: its tokens, the counter after it, and the number of
      iterations it takes. */
  datatype Expansion = Expansion(out: seq<Tok>, counter: nat, steps: nat)

  function Expand(env: Env, input: seq<Tok>, counter: nat): Expansion
    decreases Cost(env, input)
  {
    if input == [] then Expansion([], counter, 0)
    else
      IterationCosts(env, input, counter);
      var it := Iterate(env, input, counter);
      var more := Expand(env, it.input, it.counter);
      Expansion(it.emitted + more.out, more.counter, more.steps + 1)
  }

  /** A bound on the iterations that can be seen before expanding. */
  lemma {:induction false} StepsBound(env: Env, input: seq<Tok>, counter: nat)
    ensures Expand(env, input, counter).steps <= Cost(env, input)
    decreases Cost(env, input)
  {
    hide Iterate;
    if input != [] {
      IterationCosts(env, input, counter);
      var it := Iterate(env, input, counter);
      StepsBound(env, it.input, it.counter);
    }
  }

  // --------------------------------------------------------- nothing is left

  /** Expansion would leave this token alone. */
  predicate Inert(env: Env, t: Tok) {
    Live(t) ==> !Special(t.kind.name) && t.kind.name !in env.macros
  }

  lemma EmittedInert(env: Env, input: seq<Tok>, counter: nat)
    requires input != []
    ensures forall k :: 0 <= k < |Iterate(env, input, counter).emitted| ==> Inert(env, Iterate(env, input, counter).emitted[k])
  {
    hide Replacement, Decimal;
  }

  /** No output token is a macro or a special name it is not hidden from. */
  lemma NothingLeft(env: Env, input: seq<Tok>, counter: nat)
    ensures forall t :: t in Expand(env, input, counter).out && t.kind.Ident? && t.kind.name !in t.hide_ ==>
              && t.kind.name !in env.macros
              && t.kind.name !in {"__LINE__", "__FILE__", "__COUNTER__", "__INCLUDE_LEVEL__"}
  {
    hide Expand;
    OutputInert(env, input, counter);
    forall t | t in Expand(env, input, counter).out && t.kind.Ident? && t.kind.name !in t.hide_ ensures Inert(env, t) && Live(t) { }
  }

  lemma {:induction false} OutputInert(env: Env, input: seq<Tok>, counter: nat)
    ensures forall k :: 0 <= k < |Expand(env, input, counter).out| ==> Inert(env, Expand(env, input, counter).out[k])
    decreases Cost(env, input)
  {
    hide Iterate, Inert;
    if input != [] {
      IterationCosts(env, input, counter);
      EmittedInert(env, input, counter);
      var it := Iterate(env, input, counter);
      OutputInert(env, it.input, it.counter);
    }
  }

  /** A pragma operator that expansion would take out. */
  predicate LivePragma(input: seq<Tok>, k: nat) {
    k < |input| && Live(input[k]) && PragmaAt(input[k..])
  }

  /** Tokens that are all inert expand to themselves, or to fewer if there is a live
      pragma operator among them. */
  lemma {:induction false} InertStays(env: Env, input: seq<Tok>, counter: nat)
    requires forall k :: 0 <= k < |input| ==> Inert(env, input[k])
    ensures (forall k: nat :: !LivePragma(input, k)) ==> Expand(env, input, counter).out == input
    ensures (exists k: nat :: LivePragma(input, k)) ==> |Expand(env, input, counter).out| < |input|
    ensures Expand(env, input, counter).counter == counter && |Expand(env, input, counter).out| <= |input|
    decreases |input|
  {
    hide Iterate, Live, PragmaAt, Inert, LivePragma;
    if input != [] {
      InertIteration(env, input, counter);
      if Live(input[0]) && PragmaAt(input) {
        PragmaHere(input);
        InertStays(env, input[4..], counter);
      } else {
        PragmaFurther(input);
        assert input == [input[0]] + input[1..];
        InertStays(env, input[1..], counter);
      }
    } else {
      NoPragma();
    }
  }

  lemma NoPragma()
    ensures forall k: nat :: !LivePragma([], k)
  { }

  lemma InertIteration(env: Env, input: seq<Tok>, counter: nat)
    requires input != [] && Inert(env, input[0])
    ensures Live(input[0]) && PragmaAt(input) ==> |input| >= 4 && Iterate(env, input, counter) == Iteration([], input[4..], counter)
    ensures !(Live(input[0]) && PragmaAt(input)) ==> Iterate(env, input, counter) == Iteration([input[0]], input[1..], counter)
  {
    hide Replacement, Decimal;
  }

  lemma PragmaHere(input: seq<Tok>)
    requires input != [] && Live(input[0]) && PragmaAt(input)
    ensures |input| >= 4 && LivePragma(input, 0)
  {
    assert input[0..] == input;
  }

  /** Past a token that is none, the live pragma operators are those of the rest. */
  lemma PragmaFurther(input: seq<Tok>)
    requires input != [] && !(Live(input[0]) && PragmaAt(input))
    ensures forall k: nat :: LivePragma(input[1..], k) <==> LivePragma(input, k + 1)
    ensures (exists k: nat :: LivePragma(input, k)) <==> (exists k: nat :: LivePragma(input[1..], k))
  {
    hide Live, PragmaAt;
    var rest := input[1..];
    assert input[0..] == input;
    forall k: nat ensures LivePragma(rest, k) <==> LivePragma(input, k + 1) { if k < |rest| { assert rest[k..] == input[k + 1..]; } }
    if k: nat :| LivePragma(input, k) { assert k > 0 && LivePragma(rest, k - 1); }
  }

  /** Expanding what was expanded changes nothing if and only if expansion brought no
      live pragma operator together. */
  lemma ExpandedStays(env: Env, input: seq<Tok>, counter: nat, later: nat)
    ensures var out := Expand(env, input, counter).out;
            && Expand(env, out, later).counter == later
            && (Expand(env, out, later).out == out <==> forall k: nat :: !LivePragma(out, k))
  {
    hide Expand, LivePragma;
    OutputInert(env, input, counter);
    InertStays(env, Expand(env, input, counter).out, later);
  }

  // ------------------------------------------------------ where no pragma can arise

  predicate NamesNone(toks: seq<Tok>) {
    forall k :: 0 <= k < |toks| ==> toks[k].kind != Ident("_Pragma")
  }

  /** No macro body holds the name `_Pragma`, and none pastes it together. */
  ghost predicate PragmaFree(env: Env) {
    && (forall name :: name in env.macros ==> NamesNone(env.macros[name]))
    && ((forall a, b :: env.lexPair(a, b) != Ident("_Pragma"))
        || forall name :: name in env.macros ==> NoPasting(env.macros[name]))
  }

  predicate NoPasting(body: seq<Tok>) {
    forall k :: 0 <= k < |body| ==> !body[k].kind.HashHash?
  }

  lemma {:induction false} PastedNamesNone(env: Env, body: seq<Tok>, inv: Tok, i: nat, res: seq<Tok>)
    requires i <= |body| && NamesNone(body) && NamesNone(res)
    requires (forall a, b :: env.lexPair(a, b) != Ident("_Pragma")) || NoPasting(body)
    ensures NamesNone(Pasted(env, body, inv, i, res))
    decreases |body| - i
  {
    if i < |body| {
      if body[i].kind.HashHash? && i + 1 < |body| {
        PastedNamesNone(env, body, inv, i + 2, PasteInto(env, res, body[i + 1], inv));
      } else {
        PastedNamesNone(env, body, inv, i + 1, res + [body[i]]);
      }
    }
  }

  lemma {:induction false} PaintedNamesNone(toks: seq<Tok>, hs: set<string>, inv: Tok)
    requires NamesNone(toks)
    ensures NamesNone(Painted(toks, hs, inv))
    decreases |toks|
  {
    if toks != [] { PaintedNamesNone(toks[1..], hs, inv); }
  }

  lemma IterateNamesNone(env: Env, input: seq<Tok>, counter: nat)
    requires PragmaFree(env) && NamesNone(input) && input != []
    ensures NamesNone(Iterate(env, input, counter).input) && NamesNone(Iterate(env, input, counter).emitted)
  {
    hide Decimal, Pasted, Painted;
    var t := input[0];
    if Live(t) && t.kind.name in env.macros {
      PastedNamesNone(env, env.macros[t.kind.name], t, 0, []);
      PaintedNamesNone(Pasted(env, env.macros[t.kind.name], t, 0, []), t.hide_ + {t.kind.name}, t);
    }
  }

  /** Then no pragma operator comes up, in the output or across its end: expansion is
      idempotent, and distributes over concatenation. */
  lemma {:induction false} PragmaFreeExpands(env: Env, input: seq<Tok>, counter: nat)
    requires PragmaFree(env) && NamesNone(input)
    ensures !Straddles(env, input, counter) && NamesNone(Expand(env, input, counter).out)
    ensures forall k: nat :: !LivePragma(Expand(env, input, counter).out, k)
    decreases Cost(env, input)
  {
    hide Iterate, PragmaFree;
    if input != [] {
      IterationCosts(env, input, counter);
      IterateNamesNone(env, input, counter);
      var it := Iterate(env, input, counter);
      PragmaFreeExpands(env, it.input, it.counter);
      ExpandOnce(env, input, counter);
    }
  }

  // ------------------------------------------------------------- concatenation

  /** After the identifier `_Pragma`, the input ends too soon to tell. */
  predicate Unfinished(rest: seq<Tok>) {
    |rest| < 3 && (|rest| >= 1 ==> rest[0].kind.LParen?) && (|rest| >= 2 ==> rest[1].kind.Str?)
  }

  /** Somewhere in the expansion of `input` a pragma operator may continue past
      its end. */
  predicate Straddles(env: Env, input: seq<Tok>, counter: nat)
    decreases Cost(env, input)
  {
    input != [] &&
    (|| (Live(input[0]) && input[0].kind.name == "_Pragma" && Unfinished(input[1..]))
     || (IterationCosts(env, input, counter);
         var it := Iterate(env, input, counter); Straddles(env, it.input, it.counter)))
  }

  lemma IterateAppends(env: Env, a: seq<Tok>, b: seq<Tok>, counter: nat)
    requires a != [] && !(Live(a[0]) && a[0].kind.name == "_Pragma" && Unfinished(a[1..]))
    ensures var it := Iterate(env, a, counter);
            Iterate(env, a + b, counter) == Iteration(it.emitted, it.input + b, it.counter)
  {
    hide Replacement, Decimal, SpecialKind;
    var t := a[0];
    assert (a + b)[0] == t && (a + b)[1..] == a[1..] + b;
    if PragmaAt(a) { assert (a + b)[4..] == a[4..] + b; }
    if Live(t) && t.kind.name in env.macros {
      assert Replacement(env, t) + (a[1..] + b) == Replacement(env, t) + a[1..] + b;
    }
  }

  /** Expanding a concatenation is expanding its parts one after the other. */
  lemma {:induction false} ExpandAppends(env: Env, a: seq<Tok>, b: seq<Tok>, counter: nat)
    requires !Straddles(env, a, counter)
    ensures Expand(env, a + b, counter) == InTurn(env, Expand(env, a, counter), b)
    decreases Cost(env, a)
  {
    if a == [] {
      assert a + b == b;
      assert [] + Expand(env, b, counter).out == Expand(env, b, counter).out;
    } else {
      IterationCosts(env, a, counter);
      NotHere(env, a, counter);
      IterateAppends(env, a, b, counter);
      var it := Iterate(env, a, counter);
      ExpandAppends(env, it.input, b, it.counter);
      AppendsOnce(env, a, b, counter);
    }
  }

  /** An expansion followed by that of `b`. */
  function InTurn(env: Env, x: Expansion, b: seq<Tok>): Expansion {
    var y := Expand(env, b, x.counter);
    Expansion(x.out + y.out, y.counter, x.steps + y.steps)
  }

  lemma NotHere(env: Env, a: seq<Tok>, counter: nat)
    requires a != [] && !Straddles(env, a, counter)
    ensures !(Live(a[0]) && a[0].kind.name == "_Pragma" && Unfinished(a[1..]))
    ensures var it := Iterate(env, a, counter); !Straddles(env, it.input, it.counter)
  {
    hide Iterate;
    IterationCosts(env, a, counter);
  }

  lemma AppendsOnce(env: Env, a: seq<Tok>, b: seq<Tok>, counter: nat)
    requires a != []
    requires var it := Iterate(env, a, counter);
             && Iterate(env, a + b, counter) == Iteration(it.emitted, it.input + b, it.counter)
             && Expand(env, it.input + b, it.counter) == InTurn(env, Expand(env, it.input, it.counter), b)
    ensures Expand(env, a + b, counter) == InTurn(env, Expand(env, a, counter), b)
  {
    hide Expand, Iterate;
    var it := Iterate(env, a, counter);
    ExpandOnce(env, a, counter);
    ExpandOnce(env, a + b, counter);
    var x := Expand(env, it.input, it.counter);
    var y := Expand(env, b, x.counter);
    assert it.emitted + (x.out + y.out) == it.emitted + x.out + y.out;
  }

  /** Tokens that complete a pragma operator begun by `rest`. */
  function Completion(rest: seq<Tok>): (r: seq<Tok>)
    requires |rest| < 3
    ensures |r| == 3 - |rest|
  {
    [Tok(LParen, {}, 0, 0), Tok(Str(""), {}, 0, 0), Tok(RParen, {}, 0, 0)][|rest|..]
  }

  lemma {:induction false} PlainExpands(env: Env, toks: seq<Tok>, counter: nat)
    requires forall k :: 0 <= k < |toks| ==> !toks[k].kind.Ident?
    ensures Expand(env, toks, counter).out == toks && Expand(env, toks, counter).counter == counter
    decreases |toks|
  {
    hide Replacement, Decimal;
    if toks != [] { PlainExpands(env, toks[1..], counter); }
  }

  /** When the first part may straddle, some second part is swallowed: together
      they expand to four tokens fewer. */
  lemma {:induction false} StraddleSwallows(env: Env, a: seq<Tok>, counter: nat) returns (b: seq<Tok>)
    requires Straddles(env, a, counter) && "_Pragma" !in env.macros
    ensures forall k :: 0 <= k < |b| ==> !b[k].kind.Ident?
    ensures |Expand(env, a + b, counter).out| + 4 == |Expand(env, a, counter).out| + |b|
    decreases Cost(env, a)
  {
    hide Iterate, Expand;
    var it := Iterate(env, a, counter);
    if Live(a[0]) && a[0].kind.name == "_Pragma" && Unfinished(a[1..]) {
      b := Completion(a[1..]);
      SwallowedHere(env, a, counter);
    } else {
      IterationCosts(env, a, counter);
      b := StraddleSwallows(env, it.input, it.counter);
      IterateAppends(env, a, b, counter);
      ExpandOnce(env, a, counter);
      ExpandOnce(env, a + b, counter);
    }
  }

  lemma ExpandOnce(env: Env, input: seq<Tok>, counter: nat)
    requires input != []
    ensures var it := Iterate(env, input, counter);
            var more := Expand(env, it.input, it.counter);
            Expand(env, input, counter) == Expansion(it.emitted + more.out, more.counter, more.steps + 1)
  {
    hide Iterate;
  }

  /** The concatenation law holds of `a` with every continuation exactly when no
      pragma operator may straddle its end. */
  lemma AppendsIffNoStraddle(env: Env, a: seq<Tok>, counter: nat)
    requires "_Pragma" !in env.macros
    ensures (forall b: seq<Tok> :: Concatenates(env, a, b, counter)) <==> !Straddles(env, a, counter)
  {
    if Straddles(env, a, counter) {
      var b := StraddleSwallows(env, a, counter);
      PlainExpands(env, b, Expand(env, a, counter).counter);
      assert !Concatenates(env, a, b, counter);
    } else {
      forall b: seq<Tok> ensures Concatenates(env, a, b, counter) { ExpandAppends(env, a, b, counter); }
    }
  }

  predicate Concatenates(env: Env, a: seq<Tok>, b: seq<Tok>, counter: nat) {
    var x := Expand(env, a, counter);
    var y := Expand(env, b, x.counter);
    Expand(env, a + b, counter).out == x.out + y.out && Expand(env, a + b, counter).counter == y.counter
  }

  lemma SwallowedHere(env: Env, a: seq<Tok>, counter: nat)
    requires a != [] && Live(a[0]) && a[0].kind.name == "_Pragma" && Unfinished(a[1..])
    requires "_Pragma" !in env.macros
    ensures var b := Completion(a[1..]);
            |Expand(env, a + b, counter).out| + 4 == |Expand(env, a, counter).out| + |b|
  {
    hide Replacement, Decimal;
    var b := Completion(a[1..]);
    assert PragmaAt(a + b) && (a + b)[4..] == [];
    assert Expand(env, [], counter).out == [];
    PlainExpands(env, a[1..], counter);
  }

  // ------------------------------------------------------------ the expander

  class Preprocessor {
    var macros: map<string, seq<Tok>>
    var counter: nat
    var lineDelta: int
    var includeLevel: nat
    var gaveUp: bool
    const fileText: nat -> string
    const lexPair: (Kind, Kind) -> Kind

    constructor (fileText: nat -> string, lexPair: (Kind, Kind) -> Kind)
      ensures macros == map[] && counter == 0 && lineDelta == 0 && includeLevel == 0 && !gaveUp
      ensures this.fileText == fileText && this.lexPair == lexPair
    {
      macros, counter, lineDelta, includeLevel, gaveUp := map[], 0, 0, 0, false;
      this.fileText, this.lexPair := fileText, lexPair;
    }

    function Environment(): Env
      reads this
    {
      Env(macros, lineDelta, fileText, includeLevel, lexPair)
    }

    /** Work through the input from the front, putting each replacement back for
        rescanning; give up after too many tokens. */
    method ExpandAll(tokens: seq<Tok>) returns (out: seq<Tok>)
      modifies this`counter, this`gaveUp
      ensures var x := Expand(old(Environment()), tokens, old(counter));
              if x.steps <= 5_000_000 then out == x.out && counter == x.counter && gaveUp == old(gaveUp)
              else gaveUp && (out, counter) == FirstSteps(old(Environment()), tokens, old(counter), 5_000_000)
    {
      hide Expand, Iterate, Cost, FirstSteps;
      ghost var env := Environment();
      ghost var whole := Expand(env, tokens, counter);
      ghost var part := FirstSteps(env, tokens, counter, LIMIT);
      var input := tokens;
      var guard := 0;
      out := [];
      assert out + part.0 == part.0;
      while input != []
        invariant Environment() == env && gaveUp == old(gaveUp) && guard <= LIMIT
        invariant Continues(env, whole, out, input, counter, guard) && ContinuesTo(env, part, out, input, counter, LIMIT - guard)
        decreases Cost(env, input)
      {
        guard := guard + 1;
        IterationCosts(env, input, counter);
        Unfolds(env, whole, out, input, counter, guard - 1);
        if guard > LIMIT {
          gaveUp := true;
          StopsThere(env, part, out, input, counter);
          return;
        }
        StepsThere(env, part, out, input, counter, LIMIT - guard + 1);
        var emitted;
        emitted, input := TakeFront(input);
        out := out + emitted;
      }
      Ends(env, whole, out, counter, guard);
    }

    /** One token from the front: what it emits, and the input after it. */
    method TakeFront(input: seq<Tok>) returns (emitted: seq<Tok>, rest: seq<Tok>)
      requires input != []
      modifies this`counter
      ensures Iteration(emitted, rest, counter) == Iterate(old(Environment()), input, old(counter))
    {
      hide Replacement, Decimal;
      var t := input[0];
      emitted, rest := [], input[1..];
      if !Live(t) {
        emitted := [t];
      } else if Special(t.kind.name) {
        emitted := [t.(kind := SpecialKind(Environment(), t, counter))];
        if t.kind.name == "__COUNTER__" { counter := counter + 1; }
      } else if PragmaAt(input) {
        rest := input[4..];
      } else if t.kind.name in macros {
        var repl := Substitute(t);
        rest := repl + rest;
      } else {
        emitted := [t];
      }
    }

    /** A macro's replacement for the call `t`. */
    method Substitute(t: Tok) returns (repl: seq<Tok>)
      requires t.kind.Ident? && t.kind.name in macros
      ensures repl == Replacement(Environment(), t)
    {
      var res := PasteBody(macros[t.kind.name], t);
      repl := Paint(res, t.hide_ + {t.kind.name}, t);
    }

    method PasteBody(body: seq<Tok>, t: Tok) returns (res: seq<Tok>)
      ensures res == Pasted(Environment(), body, t, 0, [])
    {
      hide PasteInto;
      res := [];
      var i := 0;
      while i < |body|
        invariant i <= |body|
        invariant Pasted(Environment(), body, t, i, res) == Pasted(Environment(), body, t, 0, [])
      {
        if body[i].kind.HashHash? && i + 1 < |body| {
          res := PasteInto(Environment(), res, body[i + 1], t);
          i := i + 2;
        } else {
          res := res + [body[i]];
          i := i + 1;
        }
      }
    }

    method Paint(res: seq<Tok>, hs: set<string>, t: Tok) returns (repl: seq<Tok>)
      ensures repl == Painted(res, hs, t)
    {
      hide Painted;
      repl := [];
      assert res[0..] == res;
      for k := 0 to |res|
        invariant repl + Painted(res[k..], hs, t) == Painted(res, hs, t)
      {
        PaintedFrom(res, k, hs, t);
        if !res[k].kind.Placemarker? {
          repl := repl + [Tok(res[k].kind, res[k].hide_ + hs, t.line, t.file)];
        }
      }
      PaintedNone(hs, t);
      assert res[|res|..] == [];
    }
  }

  /** What is out, followed by the expansion of what is left, is the whole. */
  /** What the first `n` iterations put out, and the counter after them. */
  function FirstSteps(env: Env, input: seq<Tok>, counter: nat, n: nat): (seq<Tok>, nat)
    decreases n
  {
    if n == 0 || input == [] then ([], counter)
    else
      var it := Iterate(env, input, counter);
      var (out, c) := FirstSteps(env, it.input, it.counter, n - 1);
      (it.emitted + out, c)
  }

  /** That begins the whole expansion, and is it when there are no more. */
  lemma {:induction false} FirstStepsBegin(env: Env, input: seq<Tok>, counter: nat, n: nat)
    ensures var x := Expand(env, input, counter); var (out, c) := FirstSteps(env, input, counter, n);
            out <= x.out && (x.steps <= n ==> out == x.out && c == x.counter)
    decreases n
  {
    hide Iterate;
    if n > 0 && input != [] {
      var it := Iterate(env, input, counter);
      FirstStepsBegin(env, it.input, it.counter, n - 1);
    }
  }

  ghost predicate ContinuesTo(env: Env, part: (seq<Tok>, nat), out: seq<Tok>, input: seq<Tok>, counter: nat, n: int) {
    n >= 0 && part == (out + FirstSteps(env, input, counter, n).0, FirstSteps(env, input, counter, n).1)
  }

  lemma StepsThere(env: Env, part: (seq<Tok>, nat), out: seq<Tok>, input: seq<Tok>, counter: nat, n: int)
    requires input != [] && n > 0 && ContinuesTo(env, part, out, input, counter, n)
    ensures var it := Iterate(env, input, counter); ContinuesTo(env, part, out + it.emitted, it.input, it.counter, n - 1)
  {
    hide Iterate;
    var it := Iterate(env, input, counter);
    var more := FirstSteps(env, it.input, it.counter, n - 1).0;
    assert out + (it.emitted + more) == (out + it.emitted) + more;
  }

  lemma StopsThere(env: Env, part: (seq<Tok>, nat), out: seq<Tok>, input: seq<Tok>, counter: nat)
    requires ContinuesTo(env, part, out, input, counter, 0)
    ensures part == (out, counter)
  {
    assert out + [] == out;
  }

  ghost predicate Continues(env: Env, whole: Expansion, out: seq<Tok>, input: seq<Tok>, counter: nat, guard: nat) {
    var more := Expand(env, input, counter);
    whole == Expansion(out + more.out, more.counter, guard + more.steps)
  }

  lemma Unfolds(env: Env, whole: Expansion, out: seq<Tok>, input: seq<Tok>, counter: nat, guard: nat)
    requires input != [] && Continues(env, whole, out, input, counter, guard)
    ensures var it := Iterate(env, input, counter);
            Continues(env, whole, out + it.emitted, it.input, it.counter, guard + 1)
    ensures whole.steps > guard && out <= whole.out
  {
    hide Iterate;
    var it := Iterate(env, input, counter);
    var more := Expand(env, it.input, it.counter);
    assert out + (it.emitted + more.out) == (out + it.emitted) + more.out;
  }

  lemma Ends(env: Env, whole: Expansion, out: seq<Tok>, counter: nat, guard: nat)
    requires Continues(env, whole, out, [], counter, guard)
    ensures whole == Expansion(out, counter, guard)
  {
    assert out + [] == out;
  }
}
