/** Parsing expressions by precedence climbing, and printing them with no more
    parentheses than that needs. */
module ExprParser {
  import opened Wrappers

  datatype BinOp =
    | LOr | LAnd | BitOr | BitXor | BitAnd | Eq | Ne | Lt | Le | Gt | Ge | Shl | Shr | Add | Sub | Mul | Div | Rem
  datatype UnOp = Neg | Plus | LNot | BitNot | Deref | AddrOf

  datatype Expr =
    | Leaf(name: string)
    | Unary(uop: UnOp, arg: Expr)
    | Binary(op: BinOp, left: Expr, right: Expr)
    | Cond(cond: Expr, yes: Expr, no: Expr)
    | Assign(compound: Option<BinOp>, target: Expr, value: Expr)
    | Comma(first: Expr, second: Expr)

  /** Tokens; `+ - * &` are the same token as prefix and between operands. */
  datatype Tok =
    | Name(name: string)
    | Punct(op: BinOp)
    | Bang | Tilde | LParen | RParen | Question | Colon | CommaTok
    | AssignTok(compound: Option<BinOp>)

  function Prec(op: BinOp): (p: nat)
    ensures p <= 9
  {
    match op
    case LOr => 0 case LAnd => 1 case BitOr => 2 case BitXor => 3 case BitAnd => 4
    case Eq => 5 case Ne => 5
    case Lt => 6 case Le => 6 case Gt => 6 case Ge => 6
    case Shl => 7 case Shr => 7
    case Add => 8 case Sub => 8
    case Mul => 9 case Div => 9 case Rem => 9
  }

  /** The part of section 6.5 of ISO C11 that has the operator: 6.5.5 multiplies,
      6.5.14 is `||`. */
  function Section(op: BinOp): nat {
    match op
    case Mul => 5 case Div => 5 case Rem => 5
    case Add => 6 case Sub => 6
    case Shl => 7 case Shr => 7
    case Lt => 8 case Gt => 8 case Le => 8 case Ge => 8
    case Eq => 9 case Ne => 9
    case BitAnd => 10 case BitXor => 11 case BitOr => 12
    case LAnd => 13 case LOr => 14
  }

  /** An operator binds as its place in the standard's grammar says. */
  lemma BindsAsInStandard(a: BinOp, b: BinOp)
    ensures Prec(a) <= Prec(b) <==> Section(b) <= Section(a)
  { }

  function Prefix(t: Tok): Option<UnOp> {
    match t
    case Punct(Sub) => Some(Neg)
    case Punct(Add) => Some(Plus)
    case Punct(Mul) => Some(Deref)
    case Punct(BitAnd) => Some(AddrOf)
    case Bang => Some(LNot)
    case Tilde => Some(BitNot)
    case _ => None
  }

  function PrefixTok(op: UnOp): (t: Tok)
    ensures Prefix(t) == Some(op)
  {
    match op
    case Neg => Punct(Sub) case Plus => Punct(Add) case Deref => Punct(Mul) case AddrOf => Punct(BitAnd)
    case LNot => Bang case BitNot => Tilde
  }

  // ------------------------------------------------------------------- parsing

  /** An expression and the tokens after it. */
  datatype Parsed = Parsed(e: Expr, rest: seq<Tok>)

  /** A prefix operator and its operand, a name, or a parenthesized expression. */
  function ParseCast(ts: seq<Tok>): (r: Option<Parsed>)
    ensures r.Some? ==> |r.value.rest| < |ts|
    decreases |ts|, 0
  {
    if ts == [] then None
    else if Prefix(ts[0]).Some? then
      match ParseCast(ts[1..])
      case None => None
      case Some(p) => Some(Parsed(Unary(Prefix(ts[0]).value, p.e), p.rest))
    else if ts[0].Name? then Some(Parsed(Leaf(ts[0].name), ts[1..]))
    else if ts[0].LParen? then
      match ParseExpr(ts[1..])
      case None => None
      case Some(p) => if p.rest != [] && p.rest[0].RParen? then Some(Parsed(p.e, p.rest[1..])) else None
    else None
  }

  function ParseBinary(ts: seq<Tok>, min: nat): (r: Option<Parsed>)
    ensures r.Some? ==> |r.value.rest| < |ts|
    decreases |ts|, 1
  {
    match ParseCast(ts)
    case None => None
    case Some(p) => BinaryTail(p.e, p.rest, min)
  }

  /** While an operator that binds tightly enough follows, take it and its right
      operand. */
  function BinaryTail(lhs: Expr, ts: seq<Tok>, min: nat): (r: Option<Parsed>)
    ensures r.Some? ==> |r.value.rest| <= |ts|
    decreases |ts|, 0
  {
    if ts != [] && ts[0].Punct? && Prec(ts[0].op) >= min then
      match ParseBinary(ts[1..], Prec(ts[0].op) + 1)
      case None => None
      case Some(p) => BinaryTail(Binary(ts[0].op, lhs, p.e), p.rest, min)
    else Some(Parsed(lhs, ts))
  }

  function ParseConditional(ts: seq<Tok>): (r: Option<Parsed>)
    ensures r.Some? ==> |r.value.rest| < |ts|
    decreases |ts|, 2
  {
    match ParseBinary(ts, 0)
    case None => None
    case Some(c) =>
      if c.rest != [] && c.rest[0].Question? then
        match ParseExpr(c.rest[1..])
        case None => None
        case Some(y) =>
          if y.rest != [] && y.rest[0].Colon? then
            match ParseAssign(y.rest[1..])
            case None => None
            case Some(n) => Some(Parsed(Cond(c.e, y.e, n.e), n.rest))
          else None
      else Some(c)
  }

  function ParseAssign(ts: seq<Tok>): (r: Option<Parsed>)
    ensures r.Some? ==> |r.value.rest| < |ts|
    decreases |ts|, 3
  {
    match ParseConditional(ts)
    case None => None
    case Some(l) =>
      if l.rest != [] && l.rest[0].AssignTok? then
        match ParseAssign(l.rest[1..])
        case None => None
        case Some(r) => Some(Parsed(Assign(l.rest[0].compound, l.e, r.e), r.rest))
      else Some(l)
  }

  function ParseExpr(ts: seq<Tok>): (r: Option<Parsed>)
    ensures r.Some? ==> |r.value.rest| < |ts|
    decreases |ts|, 4
  {
    match ParseAssign(ts)
    case None => None
    case Some(p) => CommaTail(p.e, p.rest)
  }

  function CommaTail(lhs: Expr, ts: seq<Tok>): (r: Option<Parsed>)
    ensures r.Some? ==> |r.value.rest| <= |ts|
    decreases |ts|, 5
  {
    if ts != [] && ts[0].CommaTok? then
      match ParseAssign(ts[1..])
      case None => None
      case Some(p) => CommaTail(Comma(lhs, p.e), p.rest)
    else Some(Parsed(lhs, ts))
  }

  // ------------------------------------------------------------------ printing

  /** How tightly an expression holds together: comma, assignment, conditional,
      the ten binary levels, prefix operators, names. */
  function Level(e: Expr): (l: nat)
    ensures l <= 14
  {
    match e
    case Comma(_, _) => 0
    case Assign(_, _, _) => 1
    case Cond(_, _, _) => 2
    case Binary(op, _, _) => 3 + Prec(op)
    case Unary(_, _) => 13
    case Leaf(_) => 14
  }

  function Body(e: Expr): (r: seq<Tok>)
    ensures r != []
    decreases e, 0
  {
    match e
    case Leaf(name) => [Name(name)]
    case Unary(op, arg) => [PrefixTok(op)] + Print(arg, 13)
    case Binary(op, l, r) => Print(l, 3 + Prec(op)) + [Punct(op)] + Print(r, 4 + Prec(op))
    case Cond(c, y, n) => Print(c, 3) + [Question] + Print(y, 0) + [Colon] + Print(n, 1)
    case Assign(op, l, r) => Print(l, 3) + [AssignTok(op)] + Print(r, 1)
    case Comma(l, r) => Print(l, 0) + [CommaTok] + Print(r, 1)
  }

  /** Print `e` where something of level `min` is wanted. */
  function Print(e: Expr, min: nat): (r: seq<Tok>)
    ensures r != []
    decreases e, 1
  {
    if Level(e) < min then [LParen] + Body(e) + [RParen] else Body(e)
  }

  // ---------------------------------------------------------------- round trip

  /** No token that would go on with a binary expression of precedence `p` or
      above. */
  predicate StopsBinary(rest: seq<Tok>, p: nat) {
    rest != [] && rest[0].Punct? ==> Prec(rest[0].op) < p
  }

  predicate StopsConditional(rest: seq<Tok>) {
    StopsBinary(rest, 0) && (rest != [] ==> !rest[0].Question?)
  }

  predicate StopsAssign(rest: seq<Tok>) {
    StopsConditional(rest) && (rest != [] ==> !rest[0].AssignTok?)
  }

  predicate Stops(rest: seq<Tok>) {
    StopsAssign(rest) && (rest != [] ==> !rest[0].CommaTok?)
  }

  /** The first precedence that would not be taken into `e` printed at `min`. */
  function Bound(e: Expr, min: nat): nat {
    if e.Binary? && Level(e) >= min then Prec(e.op) + 1 else 10
  }

  lemma {:induction false} CastReads(e: Expr, rest: seq<Tok>)
    ensures ParseCast(Print(e, 13) + rest) == Some(Parsed(e, rest))
    decreases e, Level(e) < 13, 2
  {
    var ts := Print(e, 13) + rest;
    if Level(e) < 13 {
      ParenReads(e, 13, rest);
    } else if e.Unary? {
      assert Print(e, 13) == [PrefixTok(e.uop)] + Print(e.arg, 13);
      assert ts == [PrefixTok(e.uop)] + (Print(e.arg, 13) + rest);
      CastReads(e.arg, rest);
    } else {
      assert Print(e, 13) == [Name(e.name)];
      assert ts[1..] == rest;
    }
  }

  lemma {:induction false} ParenReads(e: Expr, min: nat, rest: seq<Tok>)
    requires Level(e) < min
    ensures ParseCast(Print(e, min) + rest) == Some(Parsed(e, rest))
    decreases e, true, 1
  {
    hide Print, Body, ParseExpr, ParseCast, Level;
    PrintParen(e, min, rest);
    ExprReads(e, [RParen] + rest);
    CommaStops(e, [RParen] + rest);
    CastParen(Print(e, 0) + ([RParen] + rest));
  }

  lemma PrintParen(e: Expr, min: nat, rest: seq<Tok>)
    requires Level(e) < min
    ensures Print(e, min) + rest == [LParen] + (Print(e, 0) + ([RParen] + rest))
  {
    hide Body, Level;
    assert Print(e, 0) == Body(e);
    assert Print(e, min) + rest == [LParen] + (Body(e) + ([RParen] + rest));
  }

  lemma CastParen(ts: seq<Tok>)
    ensures ParseCast([LParen] + ts)
            == match ParseExpr(ts)
               case None => None
               case Some(p) => if p.rest != [] && p.rest[0].RParen? then Some(Parsed(p.e, p.rest[1..])) else None
  {
    hide ParseExpr;
    assert ([LParen] + ts)[1..] == ts;
  }

  lemma CommaStops(e: Expr, rest: seq<Tok>)
    requires rest != [] ==> !rest[0].CommaTok?
    ensures CommaTail(e, rest) == Some(Parsed(e, rest))
  { }

  /** Reading a printed operand leaves the reader where the loop would be with it
      as the left operand. */
  lemma {:induction false} BinaryReads(e: Expr, min: nat, k: nat, rest: seq<Tok>)
    requires min <= k <= 10 && StopsBinary(rest, Bound(e, 3 + k))
    ensures ParseBinary(Print(e, 3 + k) + rest, min) == BinaryTail(e, rest, min)
    decreases e, Level(e) < 3 + k, 3
  {
    hide Print, Body, ParseBinary, BinaryTail;
    if e.Binary? && Level(e) >= 3 + k {
      var p, l, r := Prec(e.op), e.left, e.right;
      var after := [Punct(e.op)] + (Print(r, 4 + p) + rest);
      PrintBinary(e, k, rest);
      BinaryReads(l, min, p, after);
      BinaryReads(r, p + 1, p + 1, rest);
      TailTakes(l, e.op, Print(r, 4 + p) + rest, min);
      TailStops(r, rest, p + 1);
    } else if Level(e) < 3 + k {
      ParenReads(e, 3 + k, rest);
    } else {
      PrintTight(e, 3 + k);
      CastReads(e, rest);
    }
    CastThenTail(Print(e, 3 + k) + rest, min);
  }

  lemma PrintBinary(e: Expr, k: nat, rest: seq<Tok>)
    requires e.Binary? && Level(e) >= 3 + k
    ensures var p := Prec(e.op);
            Print(e, 3 + k) + rest == Print(e.left, 3 + p) + ([Punct(e.op)] + (Print(e.right, 4 + p) + rest))
  { }

  lemma PrintTight(e: Expr, min: nat)
    requires e.Unary? || e.Leaf?
    requires min <= 13
    ensures Print(e, min) == Print(e, 13)
  { }

  lemma TailTakes(lhs: Expr, op: BinOp, more: seq<Tok>, min: nat)
    requires Prec(op) >= min
    ensures BinaryTail(lhs, [Punct(op)] + more, min)
            == match ParseBinary(more, Prec(op) + 1)
               case None => None
               case Some(p) => BinaryTail(Binary(op, lhs, p.e), p.rest, min)
  {
    hide ParseBinary;
    assert ([Punct(op)] + more)[1..] == more;
  }

  lemma TailStops(e: Expr, rest: seq<Tok>, min: nat)
    requires StopsBinary(rest, min)
    ensures BinaryTail(e, rest, min) == Some(Parsed(e, rest))
  { }

  lemma CastThenTail(ts: seq<Tok>, min: nat)
    ensures ParseBinary(ts, min) == match ParseCast(ts) case None => None case Some(p) => BinaryTail(p.e, p.rest, min)
  {
    hide ParseCast, BinaryTail;
  }

  /** A printed operand of level 3 is a whole conditional when no `?` follows. */
  lemma {:induction false} OperandReads(e: Expr, rest: seq<Tok>)
    requires StopsConditional(rest)
    ensures ParseConditional(Print(e, 3) + rest) == Some(Parsed(e, rest))
    decreases e, Level(e) < 3, 4
  {
    BinaryReads(e, 0, 0, rest);
  }

  lemma {:induction false} ConditionalReads(e: Expr, rest: seq<Tok>)
    requires StopsAssign(rest)
    ensures ParseConditional(Print(e, 2) + rest) == Some(Parsed(e, rest))
    decreases e, Level(e) < 2, 5
  {
    if e.Cond? {
      var afterNo := Print(e.no, 1) + rest;
      var afterYes := [Colon] + afterNo;
      var afterCond := [Question] + (Print(e.yes, 0) + afterYes);
      PrintCond(e, rest);
      BinaryReads(e.cond, 0, 0, afterCond);
      TailStops(e.cond, afterCond, 0);
      ExprReads(e.yes, afterYes);
      CommaStops(e.yes, afterYes);
      AssignReads(e.no, rest);
      assert afterCond[1..] == Print(e.yes, 0) + afterYes && afterYes[1..] == afterNo;
    } else {
      assert Print(e, 2) == Print(e, 3);
      OperandReads(e, rest);
    }
  }

  lemma PrintCond(e: Expr, rest: seq<Tok>)
    requires e.Cond?
    ensures Print(e, 2) + rest == Print(e.cond, 3) + ([Question] + (Print(e.yes, 0) + ([Colon] + (Print(e.no, 1) + rest))))
  {
    hide Print;
    assert Print(e, 2) == Body(e) by { PrintLoose(e, 2); }
  }

  lemma PrintLoose(e: Expr, min: nat)
    requires Level(e) >= min
    ensures Print(e, min) == Body(e)
  { }

  lemma {:induction false} AssignReads(e: Expr, rest: seq<Tok>)
    requires StopsAssign(rest)
    ensures ParseAssign(Print(e, 1) + rest) == Some(Parsed(e, rest))
    decreases e, Level(e) < 1, 6
  {
    if e.Assign? {
      var after := [AssignTok(e.compound)] + (Print(e.value, 1) + rest);
      assert Print(e, 1) + rest == Print(e.target, 3) + after;
      OperandReads(e.target, after);
      AssignReads(e.value, rest);
      assert after[1..] == Print(e.value, 1) + rest;
    } else {
      assert Print(e, 1) == Print(e, 2);
      ConditionalReads(e, rest);
    }
  }

  lemma {:induction false} ExprReads(e: Expr, rest: seq<Tok>)
    requires StopsAssign(rest)
    ensures ParseExpr(Print(e, 0) + rest) == CommaTail(e, rest)
    decreases e, false, 7
  {
    if e.Comma? {
      var after := [CommaTok] + (Print(e.second, 1) + rest);
      assert Print(e, 0) + rest == Print(e.first, 0) + after;
      ExprReads(e.first, after);
      AssignReads(e.second, rest);
      assert after[1..] == Print(e.second, 1) + rest;
    } else {
      assert Print(e, 0) == Print(e, 1);
      AssignReads(e, rest);
    }
  }

  /** Every expression printed is read back, and all its tokens are taken. */
  lemma RoundTrip(e: Expr, rest: seq<Tok>)
    requires Stops(rest)
    ensures ParseExpr(Print(e, 0) + rest) == Some(Parsed(e, rest))
  {
    ExprReads(e, rest);
    CommaStops(e, rest);
  }

  /** The binary levels on their own, from any minimum precedence. */
  lemma BinaryRoundTrip(e: Expr, min: nat, rest: seq<Tok>)
    requires min <= 10 && StopsBinary(rest, min)
    ensures ParseBinary(Print(e, 3 + min) + rest, min) == Some(Parsed(e, rest))
  {
    BinaryReads(e, min, min, rest);
  }

  // --------------------------------------------------- no parenthesis too many

  lemma PrintGrows(e: Expr, k: nat, min: nat)
    requires k <= min
    ensures |Print(e, k)| <= |Print(e, min)| <= |Body(e)| + 2 && |Body(e)| <= |Print(e, k)|
  {
    hide Body;
  }

  lemma {:induction false} CastShort(ts: seq<Tok>)
    requires ParseCast(ts).Some?
    ensures |Print(ParseCast(ts).value.e, 13)| + |ParseCast(ts).value.rest| <= |ts|
    decreases |ts|, 0
  {
    if Prefix(ts[0]).Some? {
      CastShort(ts[1..]);
    } else if ts[0].LParen? {
      ExprShort(ts[1..]);
      PrintGrows(ParseExpr(ts[1..]).value.e, 0, 13);
    }
  }

  /** A left operand that `n` tokens gave, parentheses included if it needs any
      before the operator that follows. */
  ghost predicate Left(lhs: Expr, n: nat, ts: seq<Tok>, min: nat) {
    || |Print(lhs, 13)| <= n
    || (lhs.Binary? && Prec(lhs.op) >= min && |Body(lhs)| <= n && StopsBinary(ts, Prec(lhs.op) + 1))
  }

  lemma {:induction false} BinaryShort(ts: seq<Tok>, min: nat)
    requires ParseBinary(ts, min).Some? && min <= 10
    ensures var p := ParseBinary(ts, min).value; |Print(p.e, 3 + min)| + |p.rest| <= |ts| && StopsBinary(p.rest, min)
    decreases |ts|, 1
  {
    hide Print, Body, ParseCast, BinaryTail;
    CastShort(ts);
    var c := ParseCast(ts).value;
    TailShort(c.e, |ts| - |c.rest|, c.rest, min);
  }

  lemma LeftFits(lhs: Expr, n: nat, ts: seq<Tok>, min: nat, p: nat)
    requires Left(lhs, n, ts, min) && p <= 10 && (lhs.Binary? && StopsBinary(ts, Prec(lhs.op) + 1) ==> |Print(lhs, 13)| <= n || p <= Prec(lhs.op))
    ensures |Print(lhs, 3 + p)| <= n
  {
    hide Body;
    PrintGrows(lhs, 3 + p, 13);
  }

  lemma {:induction false} TailShort(lhs: Expr, n: nat, ts: seq<Tok>, min: nat)
    requires BinaryTail(lhs, ts, min).Some? && min <= 10 && Left(lhs, n, ts, min)
    ensures var p := BinaryTail(lhs, ts, min).value; |Print(p.e, 3 + min)| + |p.rest| <= n + |ts| && StopsBinary(p.rest, min)
    decreases |ts|, 0
  {
    hide Print, Body, ParseBinary, Level;
    if ts != [] && ts[0].Punct? && Prec(ts[0].op) >= min {
      var op := ts[0].op;
      var r := ParseBinary(ts[1..], Prec(op) + 1).value;
      BinaryShort(ts[1..], Prec(op) + 1);
      LeftFits(lhs, n, ts, min, Prec(op));
      NextLeft(op, lhs, r.e, n + |ts| - |r.rest|);
      TailShort(Binary(op, lhs, r.e), n + |ts| - |r.rest|, r.rest, min);
    } else {
      LeftFits(lhs, n, ts, min, min);
    }
  }

  lemma NextLeft(op: BinOp, l: Expr, r: Expr, n: nat)
    requires |Print(l, 3 + Prec(op))| + 1 + |Print(r, 4 + Prec(op))| <= n
    ensures |Body(Binary(op, l, r))| <= n
  {
    hide Print;
  }

  lemma {:induction false} ConditionalShort(ts: seq<Tok>)
    requires ParseConditional(ts).Some?
    ensures var p := ParseConditional(ts).value;
            && |Print(p.e, 2)| + |p.rest| <= |ts|
            && (p.rest != [] && p.rest[0].AssignTok? ==> |Print(p.e, 3)| + |p.rest| <= |ts|)
    decreases |ts|, 2
  {
    hide Print, ParseBinary, ParseExpr, ParseAssign;
    BinaryShort(ts, 0);
    var c := ParseBinary(ts, 0).value;
    if c.rest != [] && c.rest[0].Question? {
      ExprShort(c.rest[1..]);
      var y := ParseExpr(c.rest[1..]).value;
      AssignShort(y.rest[1..]);
      PrintLoose(Cond(c.e, y.e, ParseAssign(y.rest[1..]).value.e), 2);
    } else {
      PrintGrows(c.e, 2, 3);
    }
  }

  lemma {:induction false} AssignShort(ts: seq<Tok>)
    requires ParseAssign(ts).Some?
    ensures var p := ParseAssign(ts).value; |Print(p.e, 1)| + |p.rest| <= |ts| && (p.rest != [] ==> !p.rest[0].AssignTok?)
    decreases |ts|, 3
  {
    hide Print, ParseConditional;
    ConditionalShort(ts);
    var l := ParseConditional(ts).value;
    if l.rest != [] && l.rest[0].AssignTok? {
      AssignShort(l.rest[1..]);
      PrintLoose(ParseAssign(ts).value.e, 1);
    } else {
      PrintGrows(l.e, 1, 2);
    }
  }

  lemma {:induction false} ExprShort(ts: seq<Tok>)
    requires ParseExpr(ts).Some?
    ensures |Print(ParseExpr(ts).value.e, 0)| + |ParseExpr(ts).value.rest| <= |ts|
    decreases |ts|, 4
  {
    hide Print, ParseAssign, CommaTail;
    AssignShort(ts);
    var p := ParseAssign(ts).value;
    PrintGrows(p.e, 0, 1);
    CommaShort(p.e, |ts| - |p.rest|, p.rest);
  }

  lemma {:induction false} CommaShort(lhs: Expr, n: nat, ts: seq<Tok>)
    requires CommaTail(lhs, ts).Some? && |Print(lhs, 0)| <= n
    ensures |Print(CommaTail(lhs, ts).value.e, 0)| + |CommaTail(lhs, ts).value.rest| <= n + |ts|
    decreases |ts|, 3
  {
    hide Print, ParseAssign;
    if ts != [] && ts[0].CommaTok? {
      AssignShort(ts[1..]);
      var p := ParseAssign(ts[1..]).value;
      PrintLoose(Comma(lhs, p.e), 0);
      CommaShort(Comma(lhs, p.e), n + |ts| - |p.rest|, p.rest);
    }
  }

  /** Of all the ways to write an expression, the printed one is shortest: it has
      no parentheses but those that precedence and associativity need. */
  lemma PrintIsShortest(e: Expr, ts: seq<Tok>)
    requires ParseExpr(ts) == Some(Parsed(e, []))
    ensures |Print(e, 0)| <= |ts| && ParseExpr(Print(e, 0)) == Some(Parsed(e, []))
  {
    ExprShort(ts);
    RoundTrip(e, []);
    assert Print(e, 0) + [] == Print(e, 0);
  }

  // ------------------------------------------------------------------ the parser

  class Parser {
    const toks: seq<Tok>
    var pos: nat

    ghost predicate Valid()
      reads this
    {
      pos <= |toks|
    }

    ghost function Rest(): seq<Tok>
      requires Valid()
      reads this
    {
      toks[pos..]
    }

    /** `r` is what `p` says, and the parser stands where it says. */
    ghost predicate Gives(r: Option<Expr>, p: Option<Parsed>)
      requires Valid()
      reads this
    {
      match p
      case None => r.None?
      case Some(parsed) => r == Some(parsed.e) && Rest() == parsed.rest
    }

    constructor (toks: seq<Tok>)
      ensures Valid() && Rest() == toks
    {
      this.toks, pos := toks, 0;
    }

    predicate At(t: Tok)
      reads this
    {
      pos < |toks| && toks[pos] == t
    }

    method Cast() returns (r: Option<Expr>)
      requires Valid()
      modifies this`pos
      ensures Valid() && Gives(r, ParseCast(old(Rest())))
      decreases |toks| - pos, 0
    {
      if pos == |toks| { return None; }
      var t := toks[pos];
      if Prefix(t).Some? {
        pos := pos + 1;
        var inner := Cast();
        r := if inner.Some? then Some(Unary(Prefix(t).value, inner.value)) else None;
      } else if t.Name? {
        pos := pos + 1;
        r := Some(Leaf(t.name));
      } else if t.LParen? {
        pos := pos + 1;
        r := Expression();
        if r.Some? {
          if At(RParen) { pos := pos + 1; } else { r := None; }
        }
      } else {
        r := None;
      }
    }

    method BinaryFrom(min: nat) returns (r: Option<Expr>)
      requires Valid()
      modifies this`pos
      ensures Valid() && Gives(r, ParseBinary(old(Rest()), min))
      decreases |toks| - pos, 1
    {
      hide ParseCast, Prec;
      ghost var start := Rest();
      var first := Cast();
      if first.None? { return None; }
      var lhs := first.value;
      while pos < |toks| && toks[pos].Punct? && Prec(toks[pos].op) >= min
        invariant Valid() && pos > old(pos)
        invariant ParseBinary(start, min) == BinaryTail(lhs, Rest(), min)
        decreases |toks| - pos
      {
        var op := toks[pos].op;
        pos := pos + 1;
        var rhs := BinaryFrom(Prec(op) + 1);
        if rhs.None? { return None; }
        lhs := Binary(op, lhs, rhs.value);
      }
      r := Some(lhs);
    }

    method Conditional() returns (r: Option<Expr>)
      requires Valid()
      modifies this`pos
      ensures Valid() && Gives(r, ParseConditional(old(Rest())))
      decreases |toks| - pos, 2
    {
      hide ParseBinary, ParseExpr, ParseAssign;
      var c := BinaryFrom(0);
      if c.None? || !At(Question) { return c; }
      pos := pos + 1;
      var yes := Expression();
      if yes.None? || !At(Colon) { return None; }
      pos := pos + 1;
      var no := Assignment();
      r := if no.Some? then Some(Cond(c.value, yes.value, no.value)) else None;
    }

    method Assignment() returns (r: Option<Expr>)
      requires Valid()
      modifies this`pos
      ensures Valid() && Gives(r, ParseAssign(old(Rest())))
      decreases |toks| - pos, 3
    {
      hide ParseConditional;
      var lhs := Conditional();
      if lhs.None? || pos == |toks| || !toks[pos].AssignTok? { return lhs; }
      var compound := toks[pos].compound;
      pos := pos + 1;
      var rhs := Assignment();
      r := if rhs.Some? then Some(Assign(compound, lhs.value, rhs.value)) else None;
    }

    method Expression() returns (r: Option<Expr>)
      requires Valid()
      modifies this`pos
      ensures Valid() && Gives(r, ParseExpr(old(Rest())))
      decreases |toks| - pos, 4
    {
      hide ParseAssign;
      ghost var start := Rest();
      var first := Assignment();
      if first.None? { return None; }
      var lhs := first.value;
      while At(CommaTok)
        invariant Valid() && pos > old(pos)
        invariant ParseExpr(start) == CommaTail(lhs, Rest())
        decreases |toks| - pos
      {
        pos := pos + 1;
        var rhs := Assignment();
        if rhs.None? { return None; }
        lhs := Comma(lhs, rhs.value);
      }
      r := Some(lhs);
    }
  }
}
