/** An `#if` expression groups as the C parser groups the same tokens, and is read
    back from its printed form. */
module SameGrouping {
  import opened Wrappers
  import ExprParser
  import opened IfExpr

  /** The preprocessor's table of precedences and the parser's are the same. */
  lemma SamePrec(op: ExprParser.BinOp)
    ensures BinopPrec(op) == ExprParser.Prec(op)
  { }

  type Tok = ExprParser.Tok
  type Expr = ExprParser.Expr

  /** How numbers are spelt; any spelling will do. */
  type Spelling = PpVal -> string

  function Spelt(i: Item, name: Spelling): Tok {
    match i
    case Num(v) => ExprParser.Name(name(v))
    case Op(op) => ExprParser.Punct(op)
    case LParen => ExprParser.LParen
    case RParen => ExprParser.RParen
    case Question => ExprParser.Question
    case Colon => ExprParser.Colon
    case Bang => ExprParser.Bang
    case Tilde => ExprParser.Tilde
    case Unknown => ExprParser.Name("")
  }

  function AllSpelt(items: seq<Item>, name: Spelling): seq<Tok> {
    if items == [] then [] else [Spelt(items[0], name)] + AllSpelt(items[1..], name)
  }

  lemma FirstSpelt(items: seq<Item>, name: Spelling)
    ensures AllSpelt(items, name) == [] <==> items == []
    ensures items != [] ==>
              AllSpelt(items, name)[0] == Spelt(items[0], name) && AllSpelt(items, name)[1..] == AllSpelt(items[1..], name)
  { }

  /** The parser's tree for what the evaluator reads. */
  function ExprOf(t: Tree, name: Spelling): Expr {
    match t
    case Value(v) => ExprParser.Leaf(name(v))
    case Prefixed(i, arg) =>
      ExprParser.Unary(if i.Bang? then ExprParser.LNot else if i.Tilde? then ExprParser.BitNot
                       else if i == Op(ExprParser.Sub) then ExprParser.Neg else ExprParser.Plus,
                       ExprOf(arg, name))
    case Node(op, l, r) => ExprParser.Binary(op, ExprOf(l, name), ExprOf(r, name))
    case Choice(c, y, n) => ExprParser.Cond(ExprOf(c, name), ExprOf(y, name), ExprOf(n, name))
  }

  function Result(r: Read, name: Spelling): ExprParser.Parsed {
    ExprParser.Parsed(ExprOf(r.t, name), AllSpelt(r.rest, name))
  }

  lemma {:induction false} UnarySame(items: seq<Item>, name: Spelling)
    requires ReadUnary(items).Some?
    ensures ExprParser.ParseCast(AllSpelt(items, name)) == Some(Result(ReadUnary(items).value, name))
    decreases |items|, 1
  {
    hide AllSpelt, ReadTernary, ReadBinary, ReadTail, ExprParser.ParseExpr, ExprParser.ParseBinary, ExprParser.Prec;
    FirstSpelt(items, name);
    if items[0] == Op(ExprParser.Sub) || items[0] == Op(ExprParser.Add) || items[0].Bang? || items[0].Tilde? {
      UnarySame(items[1..], name);
    } else if items[0].LParen? {
      TernarySame(items[1..], name);
      var p := ReadTernary(items[1..]).value;
      FirstSpelt(p.rest, name);
    }
  }

  lemma {:induction false} BinarySame(items: seq<Item>, min: nat, name: Spelling)
    requires ReadBinary(items, min).Some?
    ensures ExprParser.ParseBinary(AllSpelt(items, name), min) == Some(Result(ReadBinary(items, min).value, name))
    decreases |items|, 2
  {
    hide AllSpelt, ReadTernary, ReadUnary, ReadTail, ExprParser.ParseExpr, ExprParser.ParseCast, ExprParser.BinaryTail;
    UnarySame(items, name);
    var u := ReadUnary(items).value;
    TailSame(u.t, u.rest, min, name);
  }

  lemma {:induction false} TailSame(lhs: Tree, items: seq<Item>, min: nat, name: Spelling)
    requires ReadTail(lhs, items, min).Some?
    ensures ExprParser.BinaryTail(ExprOf(lhs, name), AllSpelt(items, name), min)
            == Some(Result(ReadTail(lhs, items, min).value, name))
    decreases |items|, 0
  {
    hide AllSpelt, ReadTernary, ReadUnary, ReadBinary, ExprParser.ParseExpr, ExprParser.ParseCast, ExprParser.ParseBinary,
      ExprParser.Prec, BinopPrec;
    FirstSpelt(items, name);
    if items != [] && items[0].Op? { SamePrec(items[0].op); }
    if items != [] && items[0].Op? && BinopPrec(items[0].op) >= min {
      BinarySame(items[1..], BinopPrec(items[0].op) + 1, name);
      var r := ReadBinary(items[1..], BinopPrec(items[0].op) + 1).value;
      TailSame(Node(items[0].op, lhs, r.t), r.rest, min, name);
    }
  }

  lemma {:induction false} TernarySame(items: seq<Item>, name: Spelling)
    requires ReadTernary(items).Some?
    ensures var r := Some(Result(ReadTernary(items).value, name));
            && ExprParser.ParseConditional(AllSpelt(items, name)) == r
            && ExprParser.ParseAssign(AllSpelt(items, name)) == r
            && ExprParser.ParseExpr(AllSpelt(items, name)) == r
    decreases |items|, 3
  {
    hide AllSpelt, ReadUnary, ReadBinary, ReadTail, ExprParser.ParseCast, ExprParser.ParseBinary, ExprParser.ParseExpr,
      ExprParser.ParseAssign;
    BinarySame(items, 0, name);
    var c := ReadBinary(items, 0).value;
    FirstSpelt(c.rest, name);
    if c.rest != [] && c.rest[0].Question? {
      TernarySame(c.rest[1..], name);
      var y := ReadTernary(c.rest[1..]).value;
      FirstSpelt(y.rest, name);
      TernarySame(y.rest[1..], name);
    }
    NeitherAssignsNorGoesOn(AllSpelt(items, name), ReadTernary(items).value, name);
  }

  /** No item is spelt as an assignment or a comma. */
  lemma NeitherAssignsNorGoesOn(ts: seq<Tok>, r: Read, name: Spelling)
    requires ExprParser.ParseConditional(ts) == Some(Result(r, name))
    ensures ExprParser.ParseAssign(ts) == ExprParser.ParseExpr(ts) == Some(Result(r, name))
  {
    hide AllSpelt, ExprParser.ParseConditional;
    FirstSpelt(r.rest, name);
  }

  // ------------------------------------------------------------ and conversely

  /** An expression of the kind `#if` knows: named numbers, no `*` or `&` before an
      operand, no assignment or comma. */
  predicate Known(e: Expr) {
    match e
    case Leaf(n) => n != ""
    case Unary(op, arg) => op != ExprParser.Deref && op != ExprParser.AddrOf && Known(arg)
    case Binary(_, l, r) => Known(l) && Known(r)
    case Cond(c, y, n) => Known(c) && Known(y) && Known(n)
    case _ => false
  }

  lemma {:induction false} KnownTail(lhs: Expr, ts: seq<Tok>, min: nat)
    requires ExprParser.BinaryTail(lhs, ts, min).Some? && Known(ExprParser.BinaryTail(lhs, ts, min).value.e)
    ensures Known(lhs)
    decreases |ts|
  {
    hide ExprParser.ParseBinary, ExprParser.Prec;
    if ts != [] && ts[0].Punct? && ExprParser.Prec(ts[0].op) >= min {
      var r := ExprParser.ParseBinary(ts[1..], ExprParser.Prec(ts[0].op) + 1).value;
      KnownTail(ExprParser.Binary(ts[0].op, lhs, r.e), r.rest, min);
    }
  }

  lemma {:induction false} CommaStays(lhs: Expr, ts: seq<Tok>)
    requires ExprParser.CommaTail(lhs, ts).Some? && (lhs.Comma? || (ts != [] && ts[0].CommaTok?))
    ensures !Known(ExprParser.CommaTail(lhs, ts).value.e)
    decreases |ts|
  {
    hide ExprParser.ParseAssign;
    if ts != [] && ts[0].CommaTok? {
      var p := ExprParser.ParseAssign(ts[1..]).value;
      CommaStays(ExprParser.Comma(lhs, p.e), p.rest);
    }
  }

  /** A known expression is parsed as a conditional one already. */
  lemma KnownIsConditional(ts: seq<Tok>)
    ensures var a := ExprParser.ParseAssign(ts);
            a.Some? && Known(a.value.e) ==> ExprParser.ParseConditional(ts) == a
    ensures var x := ExprParser.ParseExpr(ts);
            x.Some? && Known(x.value.e) ==> ExprParser.ParseConditional(ts) == x
  {
    hide ExprParser.ParseConditional;
    var a, x := ExprParser.ParseAssign(ts), ExprParser.ParseExpr(ts);
    if x.Some? && Known(x.value.e) && a.value.rest != [] && a.value.rest[0].CommaTok? { CommaStays(a.value.e, a.value.rest); }
  }

  ghost predicate NamesNumbers(name: Spelling) {
    forall v :: name(v) != ""
  }

  lemma {:induction false} UnaryBack(items: seq<Item>, name: Spelling)
    requires NamesNumbers(name)
    requires var p := ExprParser.ParseCast(AllSpelt(items, name)); p.Some? && Known(p.value.e)
    ensures ReadUnary(items).Some?
    decreases |items|, 1
  {
    hide AllSpelt, ReadTernary, ReadBinary, ReadTail, ExprParser.ParseExpr, ExprParser.ParseBinary, ExprParser.Prec;
    FirstSpelt(items, name);
    if items[0] == Op(ExprParser.Sub) || items[0] == Op(ExprParser.Add) || items[0].Bang? || items[0].Tilde? {
      UnaryBack(items[1..], name);
    } else if items[0].LParen? {
      KnownIsConditional(AllSpelt(items[1..], name));
      TernaryBack(items[1..], name);
      TernarySame(items[1..], name);
      FirstSpelt(ReadTernary(items[1..]).value.rest, name);
    }
  }

  lemma {:induction false} BinaryBack(items: seq<Item>, min: nat, name: Spelling)
    requires NamesNumbers(name)
    requires var p := ExprParser.ParseBinary(AllSpelt(items, name), min); p.Some? && Known(p.value.e)
    ensures ReadBinary(items, min).Some?
    decreases |items|, 2
  {
    hide AllSpelt, ReadTernary, ReadUnary, ReadTail, ExprParser.ParseExpr, ExprParser.ParseCast, ExprParser.BinaryTail, NamesNumbers;
    var u := ExprParser.ParseCast(AllSpelt(items, name)).value;
    KnownTail(u.e, u.rest, min);
    UnaryBack(items, name);
    UnarySame(items, name);
    TailBack(ReadUnary(items).value.t, ReadUnary(items).value.rest, min, name);
  }

  lemma {:induction false} TailBack(lhs: Tree, items: seq<Item>, min: nat, name: Spelling)
    requires NamesNumbers(name)
    requires var p := ExprParser.BinaryTail(ExprOf(lhs, name), AllSpelt(items, name), min); p.Some? && Known(p.value.e)
    ensures ReadTail(lhs, items, min).Some?
    decreases |items|, 0
  {
    hide AllSpelt, ReadTernary, ReadUnary, ReadBinary, ExprParser.ParseExpr, ExprParser.ParseCast, ExprParser.ParseBinary,
      ExprParser.Prec, BinopPrec, NamesNumbers;
    FirstSpelt(items, name);
    if items != [] && items[0].Op? { SamePrec(items[0].op); }
    if items != [] && items[0].Op? && BinopPrec(items[0].op) >= min {
      var above := BinopPrec(items[0].op) + 1;
      var r := ExprParser.ParseBinary(AllSpelt(items[1..], name), above).value;
      KnownTail(ExprParser.Binary(items[0].op, ExprOf(lhs, name), r.e), r.rest, min);
      BinaryBack(items[1..], above, name);
      BinarySame(items[1..], above, name);
      var rd := ReadBinary(items[1..], above).value;
      TailBack(Node(items[0].op, lhs, rd.t), rd.rest, min, name);
    }
  }

  lemma {:induction false} TernaryBack(items: seq<Item>, name: Spelling)
    requires NamesNumbers(name)
    requires var p := ExprParser.ParseConditional(AllSpelt(items, name)); p.Some? && Known(p.value.e)
    ensures ReadTernary(items).Some?
    decreases |items|, 3
  {
    hide AllSpelt, ReadUnary, ReadBinary, ReadTail, ExprParser.ParseCast, ExprParser.ParseBinary, ExprParser.ParseExpr,
      ExprParser.ParseAssign, NamesNumbers;
    BinaryBack(items, 0, name);
    BinarySame(items, 0, name);
    var c := ReadBinary(items, 0).value;
    FirstSpelt(c.rest, name);
    if c.rest != [] && c.rest[0].Question? {
      KnownIsConditional(AllSpelt(c.rest[1..], name));
      TernaryBack(c.rest[1..], name);
      TernarySame(c.rest[1..], name);
      var y := ReadTernary(c.rest[1..]).value;
      FirstSpelt(y.rest, name);
      KnownIsConditional(AllSpelt(y.rest[1..], name));
      TernaryBack(y.rest[1..], name);
    }
  }

  // ----------------------------------------------------------------- main results

  /** The evaluator reads a tree from tokens exactly when the C parser finds there an
      expression of the kind it knows, and then the same one, to the same end. */
  lemma GroupsAlike(items: seq<Item>, name: Spelling)
    requires NamesNumbers(name)
    ensures var p := ExprParser.ParseExpr(AllSpelt(items, name));
            && (ReadTernary(items).Some? <==> p.Some? && Known(p.value.e))
            && (ReadTernary(items).Some? ==> p == Some(Result(ReadTernary(items).value, name)))
  {
    hide NamesNumbers, AllSpelt, ReadTernary, ExprParser.ParseExpr;
    var p := ExprParser.ParseExpr(AllSpelt(items, name));
    if ReadTernary(items).Some? {
      TernarySame(items, name);
      KnownTree(items, name);
    }
    if p.Some? && Known(p.value.e) {
      KnownIsConditional(AllSpelt(items, name));
      TernaryBack(items, name);
    }
  }

  lemma KnownTree(items: seq<Item>, name: Spelling)
    requires NamesNumbers(name) && ReadTernary(items).Some?
    ensures Known(ExprOf(ReadTernary(items).value.t, name))
  {
    KnownExpr(ReadTernary(items).value.t, name);
  }

  lemma {:induction false} KnownExpr(t: Tree, name: Spelling)
    requires NamesNumbers(name)
    ensures Known(ExprOf(t, name))
  {
    match t
    case Value(v) =>
    case Prefixed(_, arg) => KnownExpr(arg, name);
    case Node(_, l, r) => KnownExpr(l, name); KnownExpr(r, name);
    case Choice(c, y, n) => KnownExpr(c, name); KnownExpr(y, name); KnownExpr(n, name);
  }

  // -------------------------------------------------------- reading what is printed

  predicate IsPrefix(i: Item) {
    i == Op(ExprParser.Sub) || i == Op(ExprParser.Add) || i.Bang? || i.Tilde?
  }

  /** A tree with prefix operators where they belong: any that can be read. */
  predicate TreeOk(t: Tree) {
    match t
    case Value(_) => true
    case Prefixed(i, arg) => IsPrefix(i) && TreeOk(arg)
    case Node(_, l, r) => TreeOk(l) && TreeOk(r)
    case Choice(c, y, n) => TreeOk(c) && TreeOk(y) && TreeOk(n)
  }

  /** How tightly a tree holds together: a conditional, the ten binary levels, prefix
      operators, numbers. */
  function Tightness(t: Tree): nat {
    match t
    case Choice(_, _, _) => 2
    case Node(op, _, _) => 3 + BinopPrec(op)
    case Prefixed(_, _) => 13
    case Value(_) => 14
  }

  function Inside(t: Tree): seq<Item>
    decreases t, 0
  {
    match t
    case Value(v) => [Num(v)]
    case Prefixed(i, arg) => [i] + Written(arg, 13)
    case Node(op, l, r) => Written(l, 3 + BinopPrec(op)) + [Op(op)] + Written(r, 4 + BinopPrec(op))
    case Choice(c, y, n) => Written(c, 3) + [Question] + Written(y, 0) + [Colon] + Written(n, 1)
  }

  /** `t` written where something of tightness `min` is wanted, with parentheses only
      if it is looser. */
  function Written(t: Tree, min: nat): seq<Item>
    decreases t, 1
  {
    if Tightness(t) < min then [LParen] + Inside(t) + [RParen] else Inside(t)
  }

  lemma {:induction false} SpeltAppends(a: seq<Item>, b: seq<Item>, name: Spelling)
    ensures AllSpelt(a + b, name) == AllSpelt(a, name) + AllSpelt(b, name)
    decreases |a|
  {
    if a == [] {
      assert a + b == b;
    } else {
      assert (a + b)[1..] == a[1..] + b;
      SpeltAppends(a[1..], b, name);
    }
  }

  lemma SpeltOne(i: Item, name: Spelling)
    ensures AllSpelt([i], name) == [Spelt(i, name)]
  { }

  lemma SpeltThree(a: seq<Item>, i: Item, b: seq<Item>, name: Spelling)
    ensures AllSpelt(a + [i] + b, name) == AllSpelt(a, name) + [Spelt(i, name)] + AllSpelt(b, name)
  {
    hide AllSpelt, Spelt;
    SpeltAppends(a + [i], b, name);
    SpeltAppends(a, [i], name);
    SpeltOne(i, name);
  }

  /** Spelling what is written is printing the parser's tree. */
  lemma {:induction false} InsideSpelt(t: Tree, name: Spelling)
    requires TreeOk(t)
    ensures AllSpelt(Inside(t), name) == ExprParser.Body(ExprOf(t, name))
    decreases t, 0
  {
    hide AllSpelt, ExprParser.Print, Written, ExprParser.Prec, BinopPrec;
    match t
    case Value(v) => SpeltOne(Num(v), name);
    case Prefixed(i, arg) =>
      WrittenSpelt(arg, 13, name);
      SpeltAppends([i], Written(arg, 13), name);
      SpeltOne(i, name);
    case Node(op, l, r) =>
      SamePrec(op);
      WrittenSpelt(l, 3 + BinopPrec(op), name);
      WrittenSpelt(r, 4 + BinopPrec(op), name);
      SpeltThree(Written(l, 3 + BinopPrec(op)), Op(op), Written(r, 4 + BinopPrec(op)), name);
    case Choice(c, y, n) =>
      WrittenSpelt(c, 3, name);
      WrittenSpelt(y, 0, name);
      WrittenSpelt(n, 1, name);
      SpeltThree(Written(c, 3) + [Question] + Written(y, 0), Colon, Written(n, 1), name);
      SpeltThree(Written(c, 3), Question, Written(y, 0), name);
  }

  lemma {:induction false} WrittenSpelt(t: Tree, min: nat, name: Spelling)
    requires TreeOk(t)
    ensures AllSpelt(Written(t, min), name) == ExprParser.Print(ExprOf(t, name), min)
    decreases t, 1
  {
    hide AllSpelt, Inside, ExprParser.Body;
    InsideSpelt(t, name);
    if t.Node? { SamePrec(t.op); }
    SpeltThree([LParen] + Inside(t), RParen, [], name);
    SpeltThree([], LParen, Inside(t), name);
    FirstSpelt([], name);
    assert [LParen] + Inside(t) + [RParen] + [] == [LParen] + Inside(t) + [RParen];
    assert [] + [LParen] + Inside(t) == [LParen] + Inside(t);
  }

  /** A spelling that tells all numbers apart. */
  function Tally(v: PpVal): string {
    [if v.unsigned then 'u' else 's'] + seq(v.bits, _ => '1')
  }

  lemma TallyTells(v: PpVal, w: PpVal)
    requires Tally(v) == Tally(w)
    ensures v == w
  {
    assert Tally(v)[0] == Tally(w)[0] && |Tally(v)| == |Tally(w)|;
  }

  lemma {:induction false} SameItems(a: seq<Item>, b: seq<Item>)
    requires AllSpelt(a, Tally) == AllSpelt(b, Tally)
    ensures a == b
    decreases |a|
  {
    hide AllSpelt, Tally;
    FirstSpelt(a, Tally);
    FirstSpelt(b, Tally);
    if a != [] {
      SameItem(a[0], b[0]);
      SameItems(a[1..], b[1..]);
      assert a == [a[0]] + a[1..] && b == [b[0]] + b[1..];
    }
  }

  lemma SameItem(i: Item, j: Item)
    requires Spelt(i, Tally) == Spelt(j, Tally)
    ensures i == j
  {
    hide Tally;
    TallyNames();
    if i.Num? && j.Num? { TallyTells(i.v, j.v); }
  }

  lemma TallyNames()
    ensures NamesNumbers(Tally)
  { }

  lemma {:induction false} SameTree(t: Tree, u: Tree)
    requires TreeOk(t) && TreeOk(u) && ExprOf(t, Tally) == ExprOf(u, Tally)
    ensures t == u
  {
    hide Tally;
    match t
    case Value(v) => TallyTells(v, u.v);
    case Prefixed(_, arg) => SameTree(arg, u.arg);
    case Node(_, l, r) => SameTree(l, u.left); SameTree(r, u.right);
    case Choice(c, y, n) => SameTree(c, u.c); SameTree(y, u.yes); SameTree(n, u.no);
  }

  // ------------------------------------------------------------- what is read is ok

  lemma {:induction false} UnaryOk(items: seq<Item>)
    ensures ReadUnary(items).Some? ==> TreeOk(ReadUnary(items).value.t)
    decreases |items|, 1
  {
    hide ReadTernary;
    if items != [] && IsPrefix(items[0]) { UnaryOk(items[1..]); }
    else if items != [] && items[0].LParen? { TernaryOk(items[1..]); }
  }

  lemma {:induction false} BinaryOk(items: seq<Item>, min: nat)
    ensures ReadBinary(items, min).Some? ==> TreeOk(ReadBinary(items, min).value.t)
    decreases |items|, 2
  {
    hide ReadUnary, ReadTail;
    UnaryOk(items);
    if ReadUnary(items).Some? { TailOk(ReadUnary(items).value.t, ReadUnary(items).value.rest, min); }
  }

  lemma {:induction false} TailOk(lhs: Tree, items: seq<Item>, min: nat)
    requires TreeOk(lhs)
    ensures ReadTail(lhs, items, min).Some? ==> TreeOk(ReadTail(lhs, items, min).value.t)
    decreases |items|, 0
  {
    hide ReadBinary, BinopPrec;
    if items != [] && items[0].Op? && BinopPrec(items[0].op) >= min {
      var above := BinopPrec(items[0].op) + 1;
      BinaryOk(items[1..], above);
      if ReadBinary(items[1..], above).Some? {
        var r := ReadBinary(items[1..], above).value;
        TailOk(Node(items[0].op, lhs, r.t), r.rest, min);
      }
    }
  }

  lemma {:induction false} TernaryOk(items: seq<Item>)
    ensures ReadTernary(items).Some? ==> TreeOk(ReadTernary(items).value.t)
    decreases |items|, 3
  {
    hide ReadBinary;
    BinaryOk(items, 0);
    if ReadTernary(items).Some? {
      var c := ReadBinary(items, 0).value;
      if c.rest != [] && c.rest[0].Question? {
        TernaryOk(c.rest[1..]);
        TernaryOk(ReadTernary(c.rest[1..]).value.rest[1..]);
      }
    }
  }

  /** No item that would go on with the expression. */
  predicate Ends(rest: seq<Item>) {
    rest != [] ==> !rest[0].Op? && !rest[0].Question?
  }

  /** Every tree, written with only the parentheses it needs, is read back, to its own
      end. */
  lemma ReadsBack(t: Tree, rest: seq<Item>)
    requires TreeOk(t) && Ends(rest)
    ensures ReadTernary(Written(t, 0) + rest) == Some(Read(t, rest))
  {
    hide Tally, AllSpelt, ReadTernary, Written, ExprParser.ParseExpr, ExprParser.Print, NamesNumbers;
    var items := Written(t, 0) + rest;
    SpeltAppends(Written(t, 0), rest, Tally);
    WrittenSpelt(t, 0, Tally);
    FirstSpelt(rest, Tally);
    ExprParser.RoundTrip(ExprOf(t, Tally), AllSpelt(rest, Tally));
    TallyNames();
    KnownExpr(t, Tally);
    GroupsAlike(items, Tally);
    var r := ReadTernary(items).value;
    TernaryOk(items);
    SameTree(r.t, t);
    SameItems(r.rest, rest);
  }

  /** And the evaluator gives its lazy value, or reports that it has none. */
  lemma WrittenEvaluates(t: Tree, rest: seq<Item>)
    requires TreeOk(t) && Ends(rest)
    ensures var out := EvTernary(Written(t, 0) + rest, 0);
            && (out.DivisionByZero? <==> Lazy(t).None?) && (out.Done? <==> Lazy(t).Some?)
            && (out.Done? ==> NumberOf(out.v) == Lazy(t).value && out.rest == rest)
  {
    hide ReadTernary, EvTernary, Lazy, Written;
    ReadsBack(t, rest);
    EvaluatesLazily(Written(t, 0) + rest);
  }
}
