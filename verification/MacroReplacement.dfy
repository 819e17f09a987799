/** What a macro's replacement list is: its body, painted, with every `##` done
    from the left. */
module MacroReplacement {
  import opened MacroExpansion

  predicate PlainBody(toks: seq<Tok>) {
    forall k :: 0 <= k < |toks| ==> !toks[k].kind.HashHash?
  }

  lemma {:induction false} PlainPrefix(env: Env, pre: seq<Tok>, post: seq<Tok>, inv: Tok, i: nat)
    requires PlainBody(pre) && i <= |pre|
    ensures Pasted(env, pre + post, inv, i, pre[..i]) == Pasted(env, pre + post, inv, |pre|, pre)
    decreases |pre| - i
  {
    if i == |pre| {
      assert pre[..i] == pre;
    } else {
      assert (pre + post)[i] == pre[i] && pre[..i + 1] == pre[..i] + [pre[i]];
      PlainPrefix(env, pre, post, inv, i + 1);
    }
  }

  /** From a point on, only what follows matters. */
  lemma {:induction false} SamePasted(env: Env, a: seq<Tok>, b: seq<Tok>, inv: Tok, i: nat, j: nat, res: seq<Tok>)
    requires i <= |a| && j <= |b| && a[i..] == b[j..]
    ensures Pasted(env, a, inv, i, res) == Pasted(env, b, inv, j, res)
    decreases |a| - i
  {
    assert |a| - i == |b| - j;
    if i < |a| {
      assert a[i] == a[i..][0] && b[j] == b[j..][0];
      assert a[i + 1..] == a[i..][1..] && b[j + 1..] == b[j..][1..];
      if a[i].kind.HashHash? && i + 1 < |a| {
        assert a[i + 1] == a[i..][1] && b[j + 1] == b[j..][1];
        assert a[i + 2..] == a[i..][2..] && b[j + 2..] == b[j..][2..];
        SamePasted(env, a, b, inv, i + 2, j + 2, PasteInto(env, res, a[i + 1], inv));
      } else {
        SamePasted(env, a, b, inv, i + 1, j + 1, res + [a[i]]);
      }
    }
  }

  /** Two operands of `##`: a placemarker gives way to the other, two of them to
      nothing. */
  function Joined(env: Env, a: Tok, b: Tok, inv: Tok): seq<Tok> {
    if a.kind.Placemarker? && b.kind.Placemarker? then []
    else if a.kind.Placemarker? then [b]
    else if b.kind.Placemarker? then [a]
    else [Tok(env.lexPair(a.kind, b.kind), a.hide_ * b.hide_, inv.line, inv.file)]
  }

  /** The leftmost `##` of a body is done first, on the tokens beside it, and the rest
      then as if its result had stood there. */
  lemma LeftmostFirst(env: Env, pre: seq<Tok>, a: Tok, hh: Tok, b: Tok, post: seq<Tok>, inv: Tok)
    requires PlainBody(pre) && !a.kind.HashHash? && hh.kind.HashHash? && PlainBody(Joined(env, a, b, inv))
    ensures Pasted(env, pre + [a, hh, b] + post, inv, 0, []) == Pasted(env, pre + Joined(env, a, b, inv) + post, inv, 0, [])
  {
    var front, joined := pre + [a], pre + Joined(env, a, b, inv);
    var body, body1 := front + ([hh, b] + post), joined + post;
    assert pre + [a, hh, b] + post == body;
    assert front[..0] == [] && joined[..0] == [];
    PlainPrefix(env, front, [hh, b] + post, inv, 0);
    PlainPrefix(env, joined, post, inv, 0);
    assert body[|front|] == hh && body[|front| + 1] == b;
    assert PasteInto(env, front, b, inv) == joined;
    SamePasted(env, body, body1, inv, |front| + 2, |joined|, joined);
  }

  /** At the beginning of a body there is nothing to join to and the `##` just goes; at
      the end there is nothing to join and it stays. */
  lemma OuterPastes(env: Env, pre: seq<Tok>, hh: Tok, b: Tok, post: seq<Tok>, inv: Tok)
    requires hh.kind.HashHash? && !b.kind.HashHash? && PlainBody(pre)
    ensures Pasted(env, [hh, b] + post, inv, 0, []) == Pasted(env, [b] + post, inv, 0, [])
    ensures Pasted(env, pre + [hh], inv, 0, []) == pre + [hh]
  {
    var front, body := [hh, b] + post, [b] + post;
    assert front[0] == hh && front[1] == b && body[0] == b && [] + [b] == [b];
    SamePasted(env, front, body, inv, 2, 1, [b]);
    assert pre[..0] == [];
    PlainPrefix(env, pre, [hh], inv, 0);
    assert (pre + [hh])[|pre|] == hh;
  }

  lemma {:induction false} PaintedPlain(toks: seq<Tok>, hs: set<string>, inv: Tok)
    requires forall k :: 0 <= k < |toks| ==> !toks[k].kind.Placemarker?
    ensures |Painted(toks, hs, inv)| == |toks|
    ensures forall k :: 0 <= k < |toks| ==>
              Painted(toks, hs, inv)[k] == Tok(toks[k].kind, toks[k].hide_ + hs, inv.line, inv.file)
    decreases |toks|
  {
    if toks != [] { PaintedPlain(toks[1..], hs, inv); }
  }

  /** A body without `##` is its own replacement: each token where the call stood,
      hidden from what the call was and from the macro itself. */
  lemma PlainReplacement(env: Env, t: Tok)
    requires t.kind.Ident? && t.kind.name in env.macros && PlainBody(env.macros[t.kind.name])
    requires forall k :: 0 <= k < |env.macros[t.kind.name]| ==> !env.macros[t.kind.name][k].kind.Placemarker?
    ensures var body, r := env.macros[t.kind.name], Replacement(env, t);
            && |r| == |body|
            && forall k :: 0 <= k < |body| ==>
                 r[k] == Tok(body[k].kind, body[k].hide_ + (t.hide_ + {t.kind.name}), t.line, t.file)
  {
    var body := env.macros[t.kind.name];
    assert body + [] == body && body[..0] == [];
    PlainPrefix(env, body, [], t, 0);
    assert Pasted(env, body, t, |body|, body) == body;
    PaintedPlain(body, t.hide_ + {t.kind.name}, t);
  }

  /** Expansion is token by token: a live macro call is the expansion of its
      replacement list, then come the rest. */
  lemma CallThenRest(env: Env, t: Tok, rest: seq<Tok>, counter: nat)
    requires Live(t) && t.kind.name in env.macros && !Special(t.kind.name) && t.kind.name != "_Pragma"
    requires !Straddles(env, Replacement(env, t), counter)
    ensures var x := Expand(env, Replacement(env, t), counter); var y := Expand(env, rest, x.counter);
            && Expand(env, [t] + rest, counter).out == x.out + y.out
            && Expand(env, [t] + rest, counter).counter == y.counter
  {
    var input := [t] + rest;
    assert input[1..] == rest;
    ExpandOnce(env, input, counter);
    ExpandAppends(env, Replacement(env, t), rest, counter);
  }

  // ------------------------------------------------- one token at a time, by its name

  /** Placemarkers go, wherever they stand, and the tokens around them stay. */
  lemma {:induction false} PaintedAppends(a: seq<Tok>, b: seq<Tok>, hs: set<string>, inv: Tok)
    ensures Painted(a + b, hs, inv) == Painted(a, hs, inv) + Painted(b, hs, inv)
    ensures (forall k :: 0 <= k < |a| ==> a[k].kind.Placemarker?) ==> Painted(a, hs, inv) == []
    decreases |a|
  {
    if a == [] {
      assert a + b == b;
    } else {
      assert (a + b)[1..] == a[1..] + b;
      PaintedAppends(a[1..], b, hs, inv);
    }
  }

  predicate IsDigits(s: string) {
    forall k :: 0 <= k < |s| ==> '0' <= s[k] <= '9'
  }

  /** The number that a string of digits writes. */
  function Numeral(s: string): int {
    if s == [] then 0 else 10 * Numeral(s[..|s| - 1]) + (s[|s| - 1] as int - '0' as int)
  }

  /** A number is written in decimal, without a leading zero. */
  lemma {:induction false} DecimalIs(n: nat)
    ensures var s := Decimal(n); s != [] && IsDigits(s) && Numeral(s) == n && (|s| > 1 ==> s[0] != '0')
  {
    hide Numeral;
    if n >= 10 {
      var s := Decimal(n / 10);
      DecimalIs(n / 10);
      OneDigit(n % 10);
      DigitAdded(s, Decimal(n % 10)[0]);
      assert Decimal(n) == s + [Decimal(n % 10)[0]];
      if |s| == 1 {
        DigitAdded([], s[0]);
        assert [] + [s[0]] == s;
      }
    } else { OneDigit(n); }
  }

  lemma OneDigit(d: nat)
    requires d < 10
    ensures var s := Decimal(d); |s| == 1 && IsDigits(s) && s[0] as int == '0' as int + d && Numeral(s) == d
  {
    hide Numeral;
    var s := Decimal(d);
    DigitAdded([], s[0]);
    assert [] + [s[0]] == s;
  }

  lemma DigitAdded(s: string, last: char)
    ensures Numeral([]) == 0 && Numeral(s + [last]) == 10 * Numeral(s) + (last as int - '0' as int)
  {
    assert (s + [last])[..|s|] == s;
  }

  /** `kind` is the numeral of `n`. */
  ghost predicate Writes(kind: Kind, n: nat) {
    && kind.Number? && kind.text != [] && IsDigits(kind.text) && Numeral(kind.text) == n
    && (|kind.text| > 1 ==> kind.text[0] != '0')
  }

  /** `x` is an expansion that begins with `t` and goes on with the rest. */
  ghost predicate Begins(env: Env, x: Expansion, t: Tok, rest: seq<Tok>, counter: nat) {
    x.out == [t] + Expand(env, rest, counter).out && x.counter == Expand(env, rest, counter).counter
  }

  /** A token that is no name, or is hidden from its own, stays; a line number, file,
      counter or include level stands where its name stood, and each `__COUNTER__` is
      one more than the last. */
  lemma FrontToken(env: Env, t: Tok, rest: seq<Tok>, counter: nat)
    ensures var x := Expand(env, [t] + rest, counter);
            if !t.kind.Ident? || t.kind.name in t.hide_ then Begins(env, x, t, rest, counter)
            else
              match t.kind.name
              case "__LINE__" =>
                exists k: Kind :: Writes(k, if t.line + env.lineDelta > 0 then t.line + env.lineDelta else 0)
                                  && Begins(env, x, t.(kind := k), rest, counter)
              case "__FILE__" => Begins(env, x, t.(kind := Str(env.fileText(t.file))), rest, counter)
              case "__COUNTER__" => exists k: Kind :: Writes(k, counter) && Begins(env, x, t.(kind := k), rest, counter + 1)
              case "__INCLUDE_LEVEL__" => exists k: Kind :: Writes(k, env.includeLevel) && Begins(env, x, t.(kind := k), rest, counter)
              case _ => true
  {
    hide Expand, Decimal, Replacement, PragmaAt;
    ExpandOnce(env, [t] + rest, counter);
    assert ([t] + rest)[1..] == rest;
    var line := if t.line + env.lineDelta < 0 then 0 else t.line + env.lineDelta;
    DecimalIs(line);
    DecimalIs(counter);
    DecimalIs(env.includeLevel);
    assert Writes(Number(Decimal(line)), line) && Writes(Number(Decimal(counter)), counter);
    assert Writes(Number(Decimal(env.includeLevel)), env.includeLevel);
  }

  /** Any other live name: a pragma operator goes, a macro's replacement comes in its
      place and is looked at again, and what is no macro stays. */
  lemma FrontName(env: Env, t: Tok, rest: seq<Tok>, counter: nat)
    requires t.kind.Ident? && t.kind.name !in t.hide_
    requires t.kind.name !in {"__LINE__", "__FILE__", "__COUNTER__", "__INCLUDE_LEVEL__"}
    ensures var x := Expand(env, [t] + rest, counter);
            var pragma := t.kind.name == "_Pragma" && |rest| >= 3
                          && rest[0].kind == LParen && rest[1].kind.Str? && rest[2].kind == RParen;
            var after := if pragma then rest[3..] else if t.kind.name in env.macros then Replacement(env, t) + rest else rest;
            if !pragma && t.kind.name !in env.macros then Begins(env, x, t, rest, counter)
            else x.out == Expand(env, after, counter).out && x.counter == Expand(env, after, counter).counter
  {
    hide Expand, Decimal, Replacement;
    var input := [t] + rest;
    ExpandOnce(env, input, counter);
    assert input[1..] == rest;
    if |rest| >= 3 { assert input[4..] == rest[3..]; }
  }
}
