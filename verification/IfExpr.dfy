/** The one-pass evaluator of `#if` expressions, and the value of the expression
    tree evaluated lazily over 64-bit integers (section 6.10.1 of ISO C11). */
module IfExpr {
  import opened Wrappers
  import opened Bits
  import opened Residues
  import ConstEval
  import FoldAgrees
  import opened Ops = ExprParser

  // ------------------------------------------------------------ the evaluator

  type Bits64 = b: nat | b < 0x1_0000_0000_0000_0000 witness 0

  /** A value's two's complement bits, and whether they are read unsigned. */
  datatype PpVal = PpVal(bits: Bits64, unsigned: bool)

  const TWO64: nat := 0x1_0000_0000_0000_0000

  datatype Item = Num(v: PpVal) | Op(op: BinOp) | LParen | RParen | Question | Colon | Bang | Tilde | Unknown

  /** What is evaluated: a value and the items after it, or the first error. */
  datatype Outcome = Done(v: PpVal, rest: seq<Item>) | Malformed | DivisionByZero

  function Reduced(z: int): Bits64 {
    z % TWO64
  }

  function AsSigned(bits: Bits64): int {
    if bits < TWO64 / 2 then bits else bits - TWO64
  }

  function TruthVal(b: bool): PpVal {
    PpVal(if b then 1 else 0, false)
  }

  function ShiftBits(left: bool, a: PpVal, count: nat): Bits64 {
    if left then if count < 64 then Reduced(a.bits * Pow2(count)) else 0
    else if a.unsigned then if count < 64 then Reduced(a.bits / Pow2(count)) else 0
    else if count < 64 then Reduced(AsSigned(a.bits) / Pow2(count))
    else if AsSigned(a.bits) < 0 then Reduced(-1) else 0
  }

  predicate IsShift(op: BinOp) {
    op.Shl? || op.Shr?
  }

  predicate IsRing(op: BinOp) {
    op.Add? || op.Sub? || op.Mul?
  }

  predicate IsBitwise(op: BinOp) {
    op.BitAnd? || op.BitOr? || op.BitXor?
  }

  predicate IsDivision(op: BinOp) {
    op.Div? || op.Rem?
  }

  predicate IsTruth(op: BinOp) {
    !IsShift(op) && !IsRing(op) && !IsBitwise(op) && !IsDivision(op)
  }

  function RingOp(op: BinOp, x: int, y: int): int
    requires IsRing(op)
  {
    match op case Add => x + y case Sub => x - y case Mul => x * y
  }

  function BitsOp(op: BinOp, x: int, y: int): int
    requires IsBitwise(op)
  {
    match op
    case BitOr => Bitwise(OrOp, x, y, 64)
    case BitXor => Bitwise(XorOp, x, y, 64)
    case BitAnd => Bitwise(AndOp, x, y, 64)
  }

  /** Division toward zero, or its remainder. */
  function DivOp(op: BinOp, x: int, y: int): int
    requires IsDivision(op) && y != 0
  {
    if op.Div? then ConstEval.Quot(x, y) else ConstEval.RemTowardZero(x, y)
  }

  /** Apply an operator; a zero divisor is an error unless the operation is being
      skipped. */
  function ApplyBinop(op: BinOp, a: PpVal, b: PpVal, skip: nat): Option<PpVal> {
    var unsigned := a.unsigned || b.unsigned;
    var x, y := a.bits, b.bits;
    if IsRing(op) then Some(PpVal(Reduced(RingOp(op, x, y)), unsigned))
    else if IsBitwise(op) then Some(PpVal(Reduced(BitsOp(op, x, y)), unsigned))
    else if IsShift(op) then
      Some(PpVal(ShiftBits(op.Shl?, a, if b.unsigned || AsSigned(y) >= 0 then if y < 64 then y else 64 else 64), a.unsigned))
    else if IsDivision(op) then
      if y == 0 then if skip > 0 then Some(PpVal(0, unsigned)) else None
      else if unsigned then Some(PpVal(Reduced(if op.Div? then x / y else x % y), unsigned))
      else if AsSigned(y) == 0 then None
      else Some(PpVal(Reduced(DivOp(op, AsSigned(x), AsSigned(y))), unsigned))
    else Some(TruthVal(TruthBits(op, x, y, unsigned)))
  }

  function TruthBits(op: BinOp, x: Bits64, y: Bits64, unsigned: bool): bool
    requires IsTruth(op)
  {
    var lt := if unsigned then x < y else AsSigned(x) < AsSigned(y);
    match op
    case LOr => x != 0 || y != 0
    case LAnd => x != 0 && y != 0
    case Eq => x == y
    case Ne => x != y
    case Lt => lt
    case Le => lt || x == y
    case Gt => !lt && x != y
    case Ge => !lt
  }

  function BinopPrec(op: BinOp): (p: nat)
    ensures p <= 9
  {
    match op
    case LOr => 0
    case LAnd => 1
    case BitOr => 2
    case BitXor => 3
    case BitAnd => 4
    case Eq => 5 case Ne => 5
    case Lt => 6 case Le => 6 case Gt => 6 case Ge => 6
    case Shl => 7 case Shr => 7
    case Add => 8 case Sub => 8
    case Mul => 9 case Div => 9 case Rem => 9
  }

  /** The nesting depth inside an operand evaluated only when `live`. */
  function Skipping(skip: nat, live: bool): nat {
    if live then skip else skip + 1
  }

  function EvTernary(items: seq<Item>, skip: nat): (r: Outcome)
    ensures r.Done? ==> |r.rest| < |items|
    decreases |items|, 3
  {
    match EvBinary(items, 0, skip)
    case Malformed => Malformed
    case DivisionByZero => DivisionByZero
    case Done(c, r1) => AfterCondition(c, r1, skip)
  }

  /** What a conditional comes to, given its condition and the items after it. */
  function AfterCondition(c: PpVal, r1: seq<Item>, skip: nat): (r: Outcome)
    ensures r.Done? ==> |r.rest| <= |r1|
    decreases |r1|, 4
  {
    if r1 == [] || !r1[0].Question? then Done(c, r1)
    else
      match EvTernary(r1[1..], Skipping(skip, c.bits != 0))
      case Malformed => Malformed
      case DivisionByZero => DivisionByZero
      case Done(t, r2) =>
        if r2 == [] || !r2[0].Colon? then Malformed
        else
          match EvTernary(r2[1..], Skipping(skip, c.bits == 0))
          case Malformed => Malformed
          case DivisionByZero => DivisionByZero
          case Done(e, r3) => Done(PpVal(if c.bits != 0 then t.bits else e.bits, t.unsigned || e.unsigned), r3)
  }

  function EvBinary(items: seq<Item>, min: nat, skip: nat): (r: Outcome)
    ensures r.Done? ==> |r.rest| < |items|
    decreases |items|, 2
  {
    match EvUnary(items, skip)
    case Malformed => Malformed
    case DivisionByZero => DivisionByZero
    case Done(v, rest) => EvTail(v, rest, min, skip)
  }

  /** Is the right operand of `op` evaluated, given the left? */
  predicate RightLive(op: BinOp, lhs: PpVal) {
    match op case LAnd => lhs.bits != 0 case LOr => lhs.bits == 0 case _ => true
  }

  function EvTail(lhs: PpVal, items: seq<Item>, min: nat, skip: nat): (r: Outcome)
    ensures r.Done? ==> |r.rest| <= |items|
    decreases |items|, 0
  {
    if items == [] || !items[0].Op? || BinopPrec(items[0].op) < min then Done(lhs, items)
    else
      var op := items[0].op;
      match EvBinary(items[1..], BinopPrec(op) + 1, Skipping(skip, RightLive(op, lhs)))
      case Malformed => Malformed
      case DivisionByZero => DivisionByZero
      case Done(rhs, rest) =>
        match ApplyBinop(op, lhs, rhs, skip)
        case None => DivisionByZero
        case Some(v) => EvTail(v, rest, min, skip)
  }

  function EvUnary(items: seq<Item>, skip: nat): (r: Outcome)
    ensures r.Done? ==> |r.rest| < |items|
    decreases |items|, 1
  {
    if items == [] then Malformed
    else if items[0] == Op(Sub) || items[0] == Op(Add) || items[0].Bang? || items[0].Tilde? then
      match EvUnary(items[1..], skip)
      case Malformed => Malformed
      case DivisionByZero => DivisionByZero
      case Done(v, rest) => Done(ApplyPrefix(items[0], v), rest)
    else if items[0].Num? then Done(items[0].v, items[1..])
    else if items[0].LParen? then
      match EvTernary(items[1..], skip)
      case Malformed => Malformed
      case DivisionByZero => DivisionByZero
      case Done(v, rest) => if rest != [] && rest[0].RParen? then Done(v, rest[1..]) else Malformed
    else Malformed
  }

  function ApplyPrefix(i: Item, v: PpVal): PpVal {
    if i == Op(Sub) then PpVal(Reduced(0 - v.bits), v.unsigned)
    else if i.Bang? then TruthVal(v.bits == 0)
    else if i.Tilde? then PpVal(TWO64 - 1 - v.bits, v.unsigned)
    else v
  }

  // ----------------------------------------------------------------- the tree

  datatype Tree =
    | Value(v: PpVal)
    | Prefixed(i: Item, arg: Tree)
    | Node(op: BinOp, left: Tree, right: Tree)
    | Choice(c: Tree, yes: Tree, no: Tree)

  datatype Read = Read(t: Tree, rest: seq<Item>)

  function ReadTernary(items: seq<Item>): (r: Option<Read>)
    ensures r.Some? ==> |r.value.rest| < |items|
    decreases |items|, 3
  {
    match ReadBinary(items, 0)
    case None => None
    case Some(c) =>
      if c.rest == [] || !c.rest[0].Question? then Some(c)
      else
        match ReadTernary(c.rest[1..])
        case None => None
        case Some(y) =>
          if y.rest == [] || !y.rest[0].Colon? then None
          else
            match ReadTernary(y.rest[1..])
            case None => None
            case Some(n) => Some(Read(Choice(c.t, y.t, n.t), n.rest))
  }

  function ReadBinary(items: seq<Item>, min: nat): (r: Option<Read>)
    ensures r.Some? ==> |r.value.rest| < |items|
    decreases |items|, 2
  {
    match ReadUnary(items) case None => None case Some(u) => ReadTail(u.t, u.rest, min)
  }

  function ReadTail(lhs: Tree, items: seq<Item>, min: nat): (r: Option<Read>)
    ensures r.Some? ==> |r.value.rest| <= |items|
    decreases |items|, 0
  {
    if items == [] || !items[0].Op? || BinopPrec(items[0].op) < min then Some(Read(lhs, items))
    else
      match ReadBinary(items[1..], BinopPrec(items[0].op) + 1)
      case None => None
      case Some(r) => ReadTail(Node(items[0].op, lhs, r.t), r.rest, min)
  }

  function ReadUnary(items: seq<Item>): (r: Option<Read>)
    ensures r.Some? ==> |r.value.rest| < |items|
    decreases |items|, 1
  {
    if items == [] then None
    else if items[0] == Op(Sub) || items[0] == Op(Add) || items[0].Bang? || items[0].Tilde? then
      match ReadUnary(items[1..]) case None => None case Some(u) => Some(Read(Prefixed(items[0], u.t), u.rest))
    else if items[0].Num? then Some(Read(Value(items[0].v), items[1..]))
    else if items[0].LParen? then
      match ReadTernary(items[1..])
      case None => None
      case Some(p) => if p.rest != [] && p.rest[0].RParen? then Some(Read(p.t, p.rest[1..])) else None
    else None
  }

  // ------------------------------------------------------- its lazy meaning

  /** A number and the type it has: `uintmax_t`, or `intmax_t`. */
  datatype Number = Number(n: int, unsigned: bool)

  /** The number of the given type with this residue. */
  function Fit(z: int, unsigned: bool): Number {
    Number(Norm(z, 64, !unsigned), unsigned)
  }

  function Flag(b: bool): Number {
    Number(if b then 1 else 0, false)
  }

  /** Shifts beyond the width, and negative ones, give the limit of the shift. */
  function Shifted(left: bool, a: Number, count: int): Number {
    if 0 <= count < 64 then Fit(if left then a.n * Pow2(count) else a.n / Pow2(count), a.unsigned)
    else Number(if !left && a.n < 0 then -1 else 0, a.unsigned)
  }

  /** The operator on numbers, in the common type; `None` when the divisor is
      zero. */
  function Meaning(op: BinOp, a: Number, b: Number): Option<Number> {
    var unsigned := a.unsigned || b.unsigned;
    var x, y := Fit(a.n, unsigned).n, Fit(b.n, unsigned).n;
    match op
    case Mul => Some(Fit(x * y, unsigned))
    case Div => if y == 0 then None else Some(Fit(ConstEval.Quot(x, y), unsigned))
    case Rem => if y == 0 then None else Some(Fit(x - y * ConstEval.Quot(x, y), unsigned))
    case Add => Some(Fit(x + y, unsigned))
    case Sub => Some(Fit(x - y, unsigned))
    case Shl => Some(Shifted(true, a, b.n))
    case Shr => Some(Shifted(false, a, b.n))
    case Lt => Some(Flag(x < y))
    case Gt => Some(Flag(x > y))
    case Le => Some(Flag(x <= y))
    case Ge => Some(Flag(x >= y))
    case Eq => Some(Flag(x == y))
    case Ne => Some(Flag(x != y))
    case BitAnd => Some(Fit(Bitwise(AndOp, x, y, 64), unsigned))
    case BitXor => Some(Fit(Bitwise(XorOp, x, y, 64), unsigned))
    case BitOr => Some(Fit(Bitwise(OrOp, x, y, 64), unsigned))
    case LAnd => Some(Flag(a.n != 0 && b.n != 0))
    case LOr => Some(Flag(a.n != 0 || b.n != 0))
  }

  function PrefixMeaning(i: Item, a: Number): Number {
    if i == Op(Sub) then Fit(-a.n, a.unsigned)
    else if i.Bang? then Flag(a.n == 0)
    else if i.Tilde? then Fit(-a.n - 1, a.unsigned)
    else a
  }

  /** The type of a tree, whatever its operands' values. */
  predicate IsUnsigned(t: Tree) {
    match t
    case Value(v) => v.unsigned
    case Prefixed(i, arg) => !i.Bang? && IsUnsigned(arg)
    case Node(op, l, r) =>
      (match op
       case LOr => false case LAnd => false case Eq => false case Ne => false
       case Lt => false case Le => false case Gt => false case Ge => false
       case Shl => IsUnsigned(l) case Shr => IsUnsigned(l)
       case _ => IsUnsigned(l) || IsUnsigned(r))
    case Choice(_, yes, no) => IsUnsigned(yes) || IsUnsigned(no)
  }

  function NumberOf(v: PpVal): Number {
    Number(if v.unsigned then v.bits else AsSigned(v.bits), v.unsigned)
  }

  /** Lazy evaluation: `&&`, `||` and `?:` evaluate only the operands they need;
      `None` when a zero divisor is reached. */
  function Lazy(t: Tree): Option<Number> {
    match t
    case Value(v) => Some(NumberOf(v))
    case Prefixed(i, arg) => (match Lazy(arg) case None => None case Some(a) => Some(PrefixMeaning(i, a)))
    case Node(op, l, r) =>
      (match Lazy(l)
       case None => None
       case Some(a) =>
         if op.LAnd? && a.n == 0 then Some(Flag(false))
         else if op.LOr? && a.n != 0 then Some(Flag(true))
         else match Lazy(r) case None => None case Some(b) => Meaning(op, a, b))
    case Choice(c, yes, no) =>
      (match Lazy(c)
       case None => None
       case Some(x) =>
         match Lazy(if x.n != 0 then yes else no)
         case None => None
         case Some(v) => Some(Fit(v.n, IsUnsigned(yes) || IsUnsigned(no))))
  }

  // ------------------------------------------------------- values and numbers

  lemma Two64()
    ensures Pow2(64) == TWO64 && Pow2(63) == TWO64 / 2
  {
    assert Pow2(64) == 2 * Pow2(63);
    FoldAgrees.Pow2Is32();
    Pow2Adds(32, 32);
    Square32();
  }

  lemma Square32()
    ensures 0x1_0000_0000 * 0x1_0000_0000 == TWO64
  { }

  /** A value's number is in the range of its type and has the value's bits. */
  lemma NumberIs(v: PpVal)
    ensures var a := NumberOf(v);
            && InRange(a.n, 64, !v.unsigned) && Congruent(a.n, v.bits, 64) && (a.n == 0 <==> v.bits == 0)
            && Reduced(a.n) == v.bits
  {
    Two64();
    var n := NumberOf(v).n;
    CongruentBy(n, v.bits, 64, if n == v.bits then 0 else -1);
    DivModUnique(v.bits, Pow2(64), 0, v.bits);
  }

  /** Bits with the residue of `z` are the bits of `z` fitted to the type. */
  lemma FitIs(bits: Bits64, z: int, unsigned: bool)
    requires Congruent(bits, z, 64)
    ensures NumberOf(PpVal(bits, unsigned)) == Fit(z, unsigned)
  {
    Two64();
    NumberIs(PpVal(bits, unsigned));
    var n := NumberOf(PpVal(bits, unsigned)).n;
    NormUnique(n, z, 64, !unsigned);
  }

  lemma ReducedFits(z: int, unsigned: bool)
    ensures NumberOf(PpVal(Reduced(z), unsigned)) == Fit(z, unsigned)
  {
    Two64();
    CongruentMod(z, 64);
    FitIs(Reduced(z), z, unsigned);
  }

  lemma FitCongruent(z: int, z': int, unsigned: bool)
    requires Congruent(z, z', 64)
    ensures Fit(z, unsigned) == Fit(z', unsigned)
  {
    NormIs(z, 64, !unsigned);
    CongruentTrans(Norm(z, 64, !unsigned), z, z');
    NormUnique(Norm(z, 64, !unsigned), z', 64, !unsigned);
  }

  lemma CongruentTrans(x: int, y: int, z: int)
    requires Congruent(x, y, 64) && Congruent(y, z, 64)
    ensures Congruent(x, z, 64)
  { }

  /** An operand brought to the common type. */
  lemma OperandIs(a: PpVal, unsigned: bool)
    ensures Fit(NumberOf(a).n, unsigned).n == if unsigned then a.bits else AsSigned(a.bits)
    ensures Congruent(Fit(NumberOf(a).n, unsigned).n, a.bits, 64)
    ensures Fit(NumberOf(a).n, unsigned).n == 0 <==> a.bits == 0
  {
    NumberIs(a);
    FitIs(a.bits, NumberOf(a).n, unsigned);
    NumberIs(PpVal(a.bits, unsigned));
  }

  lemma TruthAgrees(op: BinOp, a: PpVal, b: PpVal, skip: nat)
    requires IsTruth(op)
    ensures ApplyBinop(op, a, b, skip).Some?
    ensures Meaning(op, NumberOf(a), NumberOf(b)) == Some(NumberOf(ApplyBinop(op, a, b, skip).value))
  {
    hide Fit, AsSigned, NumberOf;
    var unsigned := a.unsigned || b.unsigned;
    NumberIs(a);
    NumberIs(b);
    NumberType(a);
    NumberType(b);
    OperandIs(a, unsigned);
    OperandIs(b, unsigned);
    SignedOrder(a.bits, b.bits);
    TruthNumber(true);
    TruthNumber(false);
  }

  lemma TruthNumber(b: bool)
    ensures NumberOf(TruthVal(b)) == Flag(b)
  { }

  lemma SignedOrder(x: Bits64, y: Bits64)
    ensures AsSigned(x) == AsSigned(y) <==> x == y
  { }

  lemma RingAgrees(op: BinOp, a: PpVal, b: PpVal, skip: nat)
    requires IsRing(op)
    ensures ApplyBinop(op, a, b, skip).Some?
    ensures Meaning(op, NumberOf(a), NumberOf(b)) == Some(NumberOf(ApplyBinop(op, a, b, skip).value))
  {
    hide Fit, AsSigned, Reduced, NumberOf, RingOp, Congruent;
    var unsigned := a.unsigned || b.unsigned;
    OperandIs(a, unsigned);
    OperandIs(b, unsigned);
    NumberType(a);
    NumberType(b);
    var x, y := Fit(NumberOf(a).n, unsigned).n, Fit(NumberOf(b).n, unsigned).n;
    RingMeans(op, NumberOf(a), NumberOf(b));
    RingCongruent(op, x, a.bits, y, b.bits);
    FitCongruent(RingOp(op, x, y), RingOp(op, a.bits, b.bits), unsigned);
    ReducedFits(RingOp(op, a.bits, b.bits), unsigned);
  }

  lemma NumberType(a: PpVal)
    ensures NumberOf(a).unsigned == a.unsigned
  { }

  lemma RingMeans(op: BinOp, a: Number, b: Number)
    requires IsRing(op)
    ensures var unsigned := a.unsigned || b.unsigned;
            Meaning(op, a, b) == Some(Fit(RingOp(op, Fit(a.n, unsigned).n, Fit(b.n, unsigned).n), unsigned))
  {
    hide Fit;
  }

  lemma RingCongruent(op: BinOp, x: int, u: int, y: int, v: int)
    requires IsRing(op) && Congruent(x, u, 64) && Congruent(y, v, 64)
    ensures Congruent(RingOp(op, x, y), RingOp(op, u, v), 64)
  {
    hide Congruent;
    CongruentAdd(x, u, y, v, 64);
    CongruentMul(x, u, y, v, 64);
  }

  lemma BitwiseAgrees(op: BinOp, a: PpVal, b: PpVal, skip: nat)
    requires IsBitwise(op)
    ensures ApplyBinop(op, a, b, skip).Some?
    ensures Meaning(op, NumberOf(a), NumberOf(b)) == Some(NumberOf(ApplyBinop(op, a, b, skip).value))
  {
    hide Fit, AsSigned, Reduced, NumberOf, BitsOp, Congruent;
    var unsigned := a.unsigned || b.unsigned;
    OperandIs(a, unsigned);
    OperandIs(b, unsigned);
    NumberType(a);
    NumberType(b);
    var x, y := Fit(NumberOf(a).n, unsigned).n, Fit(NumberOf(b).n, unsigned).n;
    BitsMean(op, NumberOf(a), NumberOf(b));
    BitsCongruent(op, x, a.bits, y, b.bits);
    ReducedFits(BitsOp(op, x, y), unsigned);
  }

  lemma BitsMean(op: BinOp, a: Number, b: Number)
    requires IsBitwise(op)
    ensures var unsigned := a.unsigned || b.unsigned;
            Meaning(op, a, b) == Some(Fit(BitsOp(op, Fit(a.n, unsigned).n, Fit(b.n, unsigned).n), unsigned))
  {
    hide Fit, Bitwise;
  }

  lemma BitsCongruent(op: BinOp, x: int, u: int, y: int, v: int)
    requires IsBitwise(op) && Congruent(x, u, 64) && Congruent(y, v, 64)
    ensures BitsOp(op, x, y) == BitsOp(op, u, v)
  {
    hide Congruent, Bitwise;
    BitwiseResidues(if op.BitAnd? then AndOp else if op.BitOr? then OrOp else XorOp, x, y, u, v, 64);
  }

  lemma DivisionAgrees(op: BinOp, a: PpVal, b: PpVal, skip: nat)
    requires IsDivision(op)
    ensures b.bits == 0 <==> Meaning(op, NumberOf(a), NumberOf(b)).None?
    ensures b.bits != 0 ==>
              && ApplyBinop(op, a, b, skip).Some?
              && Meaning(op, NumberOf(a), NumberOf(b)) == Some(NumberOf(ApplyBinop(op, a, b, skip).value))
  {
    hide Fit, AsSigned, Reduced, NumberOf, DivOp, Congruent;
    var unsigned := a.unsigned || b.unsigned;
    OperandIs(a, unsigned);
    OperandIs(b, unsigned);
    NumberType(a);
    NumberType(b);
    var x, y := Fit(NumberOf(a).n, unsigned).n, Fit(NumberOf(b).n, unsigned).n;
    DivisionMeans(op, NumberOf(a), NumberOf(b));
    if y != 0 {
      if unsigned { NonNegative(op, x, y); }
      ReducedFits(DivOp(op, x, y), unsigned);
    }
  }

  lemma DivisionMeans(op: BinOp, a: Number, b: Number)
    requires IsDivision(op)
    ensures var unsigned := a.unsigned || b.unsigned; var x, y := Fit(a.n, unsigned).n, Fit(b.n, unsigned).n;
            Meaning(op, a, b) == if y == 0 then None else Some(Fit(DivOp(op, x, y), unsigned))
  {
    hide Fit, ConstEval.Quot;
  }

  lemma NonNegative(op: BinOp, x: int, y: int)
    requires x >= 0 && y > 0 && IsDivision(op)
    ensures DivOp(op, x, y) == if op.Div? then x / y else x % y
  { }

  lemma ShiftAgrees(op: BinOp, a: PpVal, b: PpVal, skip: nat)
    requires IsShift(op)
    ensures ApplyBinop(op, a, b, skip).Some?
    ensures Meaning(op, NumberOf(a), NumberOf(b)) == Some(NumberOf(ApplyBinop(op, a, b, skip).value))
  {
    hide Fit, Reduced, Pow2;
    var count := if b.unsigned || AsSigned(b.bits) >= 0 then if b.bits < 64 then b.bits else 64 else 64;
    NumberIs(a);
    if count < 64 {
      if op.Shl? {
        CongruentMul(NumberOf(a).n, a.bits, Pow2(count), Pow2(count), 64);
        FitCongruent(NumberOf(a).n * Pow2(count), a.bits * Pow2(count), a.unsigned);
        ReducedFits(a.bits * Pow2(count), a.unsigned);
      } else {
        ReducedFits(NumberOf(a).n / Pow2(count), a.unsigned);
      }
    } else {
      AllOnes();
    }
  }

  lemma AllOnes()
    ensures NumberOf(PpVal(Reduced(-1), false)) == Number(-1, false)
  { }

  /** The operators on bits do what they mean on numbers. */
  lemma ApplyAgrees(op: BinOp, a: PpVal, b: PpVal, skip: nat)
    ensures Meaning(op, NumberOf(a), NumberOf(b)).None? <==> IsDivision(op) && b.bits == 0
    ensures ApplyBinop(op, a, b, skip).None? <==> IsDivision(op) && b.bits == 0 && skip == 0
    ensures !(IsDivision(op) && b.bits == 0) ==>
              Meaning(op, NumberOf(a), NumberOf(b)) == Some(NumberOf(ApplyBinop(op, a, b, skip).value))
  {
    hide Meaning, NumberOf, Reduced, ShiftBits, RingOp, BitsOp, DivOp, TruthBits, AsSigned;
    if IsTruth(op) { TruthAgrees(op, a, b, skip); }
    else if IsRing(op) { RingAgrees(op, a, b, skip); }
    else if IsBitwise(op) { BitwiseAgrees(op, a, b, skip); }
    else if IsShift(op) { ShiftAgrees(op, a, b, skip); }
    else { DivisionAgrees(op, a, b, skip); }
  }

  /** Skipped or not, the type of a result follows from the types of the operands. */
  lemma ApplyType(op: BinOp, a: PpVal, b: PpVal, skip: nat, l: Tree, r: Tree)
    requires a.unsigned == IsUnsigned(l) && b.unsigned == IsUnsigned(r) && ApplyBinop(op, a, b, skip).Some?
    ensures ApplyBinop(op, a, b, skip).value.unsigned == IsUnsigned(Node(op, l, r))
  {
    hide Reduced, ShiftBits, AsSigned, RingOp, BitsOp, DivOp, TruthBits;
  }

  lemma PrefixAgrees(i: Item, v: PpVal, t: Tree)
    requires v.unsigned == IsUnsigned(t)
    ensures NumberOf(ApplyPrefix(i, v)) == PrefixMeaning(i, NumberOf(v))
    ensures ApplyPrefix(i, v).unsigned == IsUnsigned(Prefixed(i, t))
  {
    hide Fit, Reduced, Pow2;
    NumberIs(v);
    var n := NumberOf(v).n;
    CongruentAdd(0, 0, n, v.bits, 64);
    CongruentAdd(-1, -1, n, v.bits, 64);
    if i == Op(Sub) {
      FitCongruent(-n, 0 - v.bits, v.unsigned);
      ReducedFits(0 - v.bits, v.unsigned);
    } else if i.Tilde? {
      Two64();
      CongruentBy(TWO64 - 1 - v.bits, -1 - v.bits, 64, 1);
      CongruentTrans(-1 - n, -1 - v.bits, TWO64 - 1 - v.bits);
      FitIs(TWO64 - 1 - v.bits, -n - 1, v.unsigned);
    }
  }

  // --------------------------------------------- each operator, on numbers and bits

  /** Sums, differences and products: the number of the operands' common type that is
      congruent to the exact result. */
  lemma RingNumbers(op: BinOp, a: PpVal, b: PpVal, skip: nat)
    requires op.Add? || op.Sub? || op.Mul?
    ensures ApplyBinop(op, a, b, skip).Some?
    ensures var x, y, r := NumberOf(a).n, NumberOf(b).n, NumberOf(ApplyBinop(op, a, b, skip).value);
            && r.unsigned == (a.unsigned || b.unsigned) && InRange(r.n, 64, !r.unsigned)
            && Congruent(r.n, if op.Add? then x + y else if op.Sub? then x - y else x * y, 64)
  {
    hide Congruent, InRange, NumberOf, RingOp, ApplyBinop;
    RingResidue(op, a, b, skip);
    RingIs(op, NumberOf(a).n, NumberOf(b).n);
  }

  lemma RingResidue(op: BinOp, a: PpVal, b: PpVal, skip: nat)
    requires IsRing(op)
    ensures ApplyBinop(op, a, b, skip).Some?
    ensures var r := NumberOf(ApplyBinop(op, a, b, skip).value);
            && r.unsigned == (a.unsigned || b.unsigned) && InRange(r.n, 64, !r.unsigned)
            && Congruent(r.n, RingOp(op, NumberOf(a).n, NumberOf(b).n), 64)
  {
    hide Congruent, InRange, AsSigned, Reduced, NumberOf, RingOp, ApplyBinop;
    NumberIs(a);
    NumberIs(b);
    RingBits(op, a, b, skip);
    var r := ApplyBinop(op, a, b, skip).value;
    NumberIs(r);
    NumberType(r);
    var x, y := NumberOf(a).n, NumberOf(b).n;
    RingCongruent(op, x, a.bits, y, b.bits);
    CongruentBack(RingOp(op, x, y), RingOp(op, a.bits, b.bits));
    ReducedCongruent(RingOp(op, a.bits, b.bits));
    CongruentTrans(r.bits, RingOp(op, a.bits, b.bits), RingOp(op, x, y));
    CongruentTrans(NumberOf(r).n, r.bits, RingOp(op, x, y));
  }

  lemma CongruentBack(x: int, y: int)
    requires Congruent(x, y, 64)
    ensures Congruent(y, x, 64)
  { }

  lemma RingBits(op: BinOp, a: PpVal, b: PpVal, skip: nat)
    requires IsRing(op)
    ensures ApplyBinop(op, a, b, skip) == Some(PpVal(Reduced(RingOp(op, a.bits, b.bits)), a.unsigned || b.unsigned))
  {
    hide Reduced, RingOp;
  }

  lemma RingIs(op: BinOp, x: int, y: int)
    requires op.Add? || op.Sub? || op.Mul?
    ensures RingOp(op, x, y) == if op.Add? then x + y else if op.Sub? then x - y else x * y
  { }

  lemma ReducedCongruent(z: int)
    ensures Congruent(Reduced(z), z, 64)
  {
    Two64();
    CongruentMod(z, 64);
  }

  /** `&`, `^` and `|` act on each of the 64 bits. */
  lemma BitsApart(op: BinOp, a: PpVal, b: PpVal, skip: nat, k: nat)
    requires (op.BitAnd? || op.BitXor? || op.BitOr?) && k < 64
    ensures ApplyBinop(op, a, b, skip).Some?
    ensures var x, y, r := BitAt(a.bits, k), BitAt(b.bits, k), ApplyBinop(op, a, b, skip).value;
            && r.unsigned == (a.unsigned || b.unsigned)
            && (BitAt(r.bits, k) <==> if op.BitAnd? then x && y else if op.BitOr? then x || y else x != y)
  {
    hide Bitwise, AsSigned, BitAt;
    var o := if op.BitAnd? then AndOp else if op.BitOr? then OrOp else XorOp;
    BitwiseBits(o, a.bits, b.bits, 64, k);
    Two64();
    DivModUnique(Bitwise(o, a.bits, b.bits, 64), TWO64, 0, Bitwise(o, a.bits, b.bits, 64));
  }

  // ------------------------------------------------------------ main results

  /** What the evaluator should give for the tree that was read: skipped, just a
      value of the tree's type; evaluated, its lazy value or its division by zero. */
  ghost predicate Agrees(out: Outcome, rd: Option<Read>, skip: nat) {
    match rd
    case None => !out.Done?
    case Some(r) =>
      if skip > 0 then out.Done? && out.rest == r.rest && out.v.unsigned == IsUnsigned(r.t)
      else
        match Lazy(r.t)
        case None => out.DivisionByZero?
        case Some(n) => out.Done? && out.rest == r.rest && NumberOf(out.v) == n && out.v.unsigned == IsUnsigned(r.t)
  }

  /** `v` is a value for the tree `t`. */
  ghost predicate ValueFor(v: PpVal, t: Tree, skip: nat) {
    v.unsigned == IsUnsigned(t) && (skip == 0 ==> Lazy(t) == Some(NumberOf(v)))
  }

  /** A zero divisor reached in a left operand is reached in the whole. */
  lemma {:induction false} LeftStrict(lhs: Tree, items: seq<Item>, min: nat)
    requires Lazy(lhs).None? && ReadTail(lhs, items, min).Some?
    ensures Lazy(ReadTail(lhs, items, min).value.t).None?
    decreases |items|
  {
    hide ReadBinary, Meaning;
    if !(items == [] || !items[0].Op? || BinopPrec(items[0].op) < min) {
      var r := ReadBinary(items[1..], BinopPrec(items[0].op) + 1).value;
      LeftStrict(Node(items[0].op, lhs, r.t), r.rest, min);
    }
  }

  lemma {:induction false} UnaryAgrees(items: seq<Item>, skip: nat)
    ensures Agrees(EvUnary(items, skip), ReadUnary(items), skip)
    decreases |items|, 1
  {
    hide ApplyPrefix, PrefixMeaning, NumberOf, EvTernary, ReadTernary;
    if items != [] {
      if items[0] == Op(Sub) || items[0] == Op(Add) || items[0].Bang? || items[0].Tilde? {
        UnaryAgrees(items[1..], skip);
        if EvUnary(items[1..], skip).Done? && ReadUnary(items[1..]).Some? {
          PrefixAgrees(items[0], EvUnary(items[1..], skip).v, ReadUnary(items[1..]).value.t);
        }
      } else if items[0].LParen? {
        TernaryAgrees(items[1..], skip);
      }
    }
  }

  lemma {:induction false} BinaryAgrees(items: seq<Item>, min: nat, skip: nat)
    ensures Agrees(EvBinary(items, min, skip), ReadBinary(items, min), skip)
    decreases |items|, 2
  {
    hide EvUnary, ReadUnary, EvTail, ReadTail, NumberOf;
    UnaryAgrees(items, skip);
    var out, rd := EvUnary(items, skip), ReadUnary(items);
    if rd.Some? {
      if out.Done? {
        TailAgrees(out.v, rd.value.t, out.rest, min, skip);
      } else if ReadTail(rd.value.t, rd.value.rest, min).Some? {
        LeftStrict(rd.value.t, rd.value.rest, min);
      }
    }
  }

  lemma {:induction false} TailAgrees(lhs: PpVal, tree: Tree, items: seq<Item>, min: nat, skip: nat)
    requires ValueFor(lhs, tree, skip)
    ensures Agrees(EvTail(lhs, items, min, skip), ReadTail(tree, items, min), skip)
    decreases |items|, 0
  {
    hide EvBinary, ReadBinary, ApplyBinop, NumberOf, Meaning, BinopPrec, RightLive, Lazy, IsUnsigned;
    if !(items == [] || !items[0].Op? || BinopPrec(items[0].op) < min) {
      var op := items[0].op;
      var inner := Skipping(skip, RightLive(op, lhs));
      BinaryAgrees(items[1..], BinopPrec(op) + 1, inner);
      var out, rd := EvBinary(items[1..], BinopPrec(op) + 1, inner), ReadBinary(items[1..], BinopPrec(op) + 1);
      if rd.Some? {
        var node := Node(op, tree, rd.value.t);
        if out.Done? {
          NodeAgrees(op, lhs, tree, out.v, rd.value.t, skip);
          var v := ApplyBinop(op, lhs, out.v, skip);
          if v.Some? {
            TailAgrees(v.value, node, out.rest, min, skip);
          } else if ReadTail(node, rd.value.rest, min).Some? {
            LeftStrict(node, rd.value.rest, min);
          }
        } else {
          NodeStops(op, lhs, tree, rd.value.t, skip);
          if ReadTail(node, rd.value.rest, min).Some? { LeftStrict(node, rd.value.rest, min); }
        }
      }
    }
  }

  /** Applying an operator to values for its operands gives a value for the node,
      or stops where lazy evaluation does. */
  lemma NodeAgrees(op: BinOp, a: PpVal, l: Tree, b: PpVal, r: Tree, skip: nat)
    requires ValueFor(a, l, skip) && ValueFor(b, r, Skipping(skip, RightLive(op, a)))
    ensures match ApplyBinop(op, a, b, skip)
            case Some(v) => ValueFor(v, Node(op, l, r), skip)
            case None => skip == 0 && Lazy(Node(op, l, r)).None?
  {
    hide ApplyBinop, NumberOf, Meaning, IsUnsigned;
    ApplyAgrees(op, a, b, skip);
    NumberIs(a);
    if ApplyBinop(op, a, b, skip).Some? { ApplyType(op, a, b, skip, l, r); }
    if skip == 0 && !RightLive(op, a) { ShortCircuit(op, a, b); }
  }

  lemma ShortCircuit(op: BinOp, a: PpVal, b: PpVal)
    requires !RightLive(op, a)
    ensures ApplyBinop(op, a, b, 0) == Some(TruthVal(op.LOr?)) && NumberOf(TruthVal(op.LOr?)) == Flag(op.LOr?)
  { }

  /** The right operand stopped the evaluator: so it does lazy evaluation. */
  lemma NodeStops(op: BinOp, a: PpVal, l: Tree, r: Tree, skip: nat)
    requires ValueFor(a, l, skip) && Skipping(skip, RightLive(op, a)) == 0 && Lazy(r).None?
    ensures Lazy(Node(op, l, r)).None?
  {
    hide NumberOf, Meaning;
    NumberIs(a);
  }

  lemma {:induction false} TernaryAgrees(items: seq<Item>, skip: nat)
    ensures Agrees(EvTernary(items, skip), ReadTernary(items), skip)
    decreases |items|, 3
  {
    hide EvBinary, ReadBinary, NumberOf, Fit, AfterCondition;
    BinaryAgrees(items, 0, skip);
    var c, cr := EvBinary(items, 0, skip), ReadBinary(items, 0);
    if cr.Some? && c.Done? { ArmsAgree(c.v, cr.value, items, skip); }
  }

  /** From the condition on, its value being known. */
  lemma {:induction false} ArmsAgree(c: PpVal, cr: Read, items: seq<Item>, skip: nat)
    requires ReadBinary(items, 0) == Some(cr) && ValueFor(c, cr.t, skip)
    ensures Agrees(AfterCondition(c, cr.rest, skip), ReadTernary(items), skip)
    decreases |items|, 0
  {
    hide EvTernary, NumberOf, Lazy, IsUnsigned, ReadBinary;
    if cr.rest != [] && cr.rest[0].Question? {
      var arms := cr.rest[1..];
      TernaryAgrees(arms, Skipping(skip, c.bits != 0));
      var t, tr := EvTernary(arms, Skipping(skip, c.bits != 0)), ReadTernary(arms);
      if tr.Some? && tr.value.rest != [] && tr.value.rest[0].Colon? {
        var last := tr.value.rest[1..];
        TernaryAgrees(last, Skipping(skip, c.bits == 0));
        var e, er := EvTernary(last, Skipping(skip, c.bits == 0)), ReadTernary(last);
        if er.Some? {
          if skip == 0 { ChoiceStops(c, cr.t, tr.value.t, er.value.t); }
          if t.Done? && e.Done? { ChoiceAgrees(c, t.v, e.v, cr.t, tr.value.t, er.value.t, er.value.rest, skip); }
        }
      }
    }
  }

  /** Lazy evaluation stops in a conditional just where it does in the arm taken. */
  lemma ChoiceStops(c: PpVal, cond: Tree, yes: Tree, no: Tree)
    requires ValueFor(c, cond, 0)
    ensures Lazy(Choice(cond, yes, no)).None? <==> Lazy(if c.bits != 0 then yes else no).None?
  {
    hide NumberOf, Fit;
    NumberIs(c);
  }

  /** The value of a conditional whose arms are both known, one of them perhaps
      skipped. */
  lemma ChoiceAgrees(c: PpVal, t: PpVal, e: PpVal, cond: Tree, yes: Tree, no: Tree, rest: seq<Item>, skip: nat)
    requires ValueFor(c, cond, skip) && ValueFor(t, yes, Skipping(skip, c.bits != 0)) && ValueFor(e, no, Skipping(skip, c.bits == 0))
    ensures Agrees(Done(PpVal(if c.bits != 0 then t.bits else e.bits, t.unsigned || e.unsigned), rest),
                   Some(Read(Choice(cond, yes, no), rest)), skip)
  {
    hide NumberOf, Fit;
    NumberIs(c);
    ArmAgrees(c, t, e, yes, no);
  }

  /** The chosen arm's bits in the common type of both. */
  lemma ArmAgrees(c: PpVal, t: PpVal, e: PpVal, yes: Tree, no: Tree)
    requires t.unsigned == IsUnsigned(yes) && e.unsigned == IsUnsigned(no)
    ensures var v := if c.bits != 0 then t else e;
            NumberOf(PpVal(v.bits, t.unsigned || e.unsigned)) == Fit(NumberOf(v).n, IsUnsigned(yes) || IsUnsigned(no))
  {
    hide Fit, NumberOf;
    var v := if c.bits != 0 then t else e;
    NumberIs(v);
    FitIs(v.bits, NumberOf(v).n, t.unsigned || e.unsigned);
  }

  /** The whole of an `#if` line: the evaluator gives exactly the lazy value of
      the expression read, and reports a division by zero exactly when lazy
      evaluation reaches a zero divisor. */
  lemma EvaluatesLazily(items: seq<Item>)
    requires ReadTernary(items).Some?
    ensures var r := ReadTernary(items).value; var out := EvTernary(items, 0);
            && (out.DivisionByZero? <==> Lazy(r.t).None?)
            && (out.Done? <==> Lazy(r.t).Some?)
            && (out.Done? ==> NumberOf(out.v) == Lazy(r.t).value && out.rest == r.rest)
  {
    TernaryAgrees(items, 0);
  }

  // ------------------------------------------------------------ the evaluator

  datatype EvError = BadSyntax | ZeroDivisor

  lemma Unfolds(items: seq<Item>, skip: nat)
    ensures EvTernary(items, skip)
            == match EvBinary(items, 0, skip)
               case Malformed => Malformed
               case DivisionByZero => DivisionByZero
               case Done(c, r1) => AfterCondition(c, r1, skip)
  {
    hide EvBinary;
  }

  class Evaluator {
    const items: seq<Item>
    var pos: nat
    var skip: nat

    ghost predicate Valid()
      reads this
    {
      pos <= |items|
    }

    ghost function Rest(): seq<Item>
      requires Valid()
      reads this
    {
      items[pos..]
    }

    /** The call's result and the position are as `out` says. */
    ghost predicate Gives(r: Result<PpVal, EvError>, out: Outcome)
      requires Valid()
      reads this
    {
      match out
      case Done(v, rest) => r == Ok(v) && Rest() == rest
      case Malformed => r == Err(BadSyntax)
      case DivisionByZero => r == Err(ZeroDivisor)
    }

    constructor (items: seq<Item>)
      ensures Valid() && Rest() == items && skip == 0
    {
      this.items, pos, skip := items, 0, 0;
    }

    predicate At(i: Item)
      reads this
    {
      pos < |items| && items[pos] == i
    }

    method Ternary() returns (r: Result<PpVal, EvError>)
      requires Valid()
      modifies this
      ensures Valid() && skip == old(skip) && Gives(r, EvTernary(old(Rest()), skip))
      decreases |items| - pos, 4
    {
      hide EvBinary, EvTernary;
      ghost var start := Rest();
      r := BinaryFrom(0);
      Unfolds(start, skip);
      if r.Err? || !At(Item.Question) { return; }
      var c := r.value;
      ghost var asked := Rest();
      pos := pos + 1;
      assert Rest() == asked[1..];
      r := Arm(c.bits != 0);
      if r.Err? { return; }
      var t := r.value;
      if !At(Item.Colon) { return Err(BadSyntax); }
      ghost var otherwise := Rest();
      pos := pos + 1;
      assert Rest() == otherwise[1..];
      r := Arm(c.bits == 0);
      if r.Ok? { r := Ok(PpVal(if c.bits != 0 then t.bits else r.value.bits, t.unsigned || r.value.unsigned)); }
    }

    /** An arm, evaluated only when `live`. */
    method Arm(live: bool) returns (r: Result<PpVal, EvError>)
      requires Valid()
      modifies this
      ensures Valid() && skip == old(skip) && Gives(r, EvTernary(old(Rest()), Skipping(skip, live)))
      decreases |items| - pos, 5
    {
      hide EvTernary;
      if !live { skip := skip + 1; }
      r := Ternary();
      if !live { skip := skip - 1; }
    }

    method BinaryFrom(min: nat) returns (r: Result<PpVal, EvError>)
      requires Valid()
      modifies this
      ensures Valid() && skip == old(skip) && Gives(r, EvBinary(old(Rest()), min, skip))
      decreases |items| - pos, 2
    {
      hide EvUnary, ApplyBinop, BinopPrec, RightLive, EvTernary, AfterCondition;
      ghost var start := Rest();
      r := Prefixes();
      if r.Err? { return; }
      var lhs := r.value;
      while pos < |items| && items[pos].Op? && BinopPrec(items[pos].op) >= min
        invariant Valid() && pos > old(pos) && skip == old(skip)
        invariant EvBinary(start, min, skip) == EvTail(lhs, Rest(), min, skip)
        decreases |items| - pos
      {
        var op := items[pos].op;
        pos := pos + 1;
        var live := RightLive(op, lhs);
        if !live { skip := skip + 1; }
        r := BinaryFrom(BinopPrec(op) + 1);
        if !live { skip := skip - 1; }
        if r.Err? { return; }
        var v := ApplyBinop(op, lhs, r.value, skip);
        if v.None? { return Err(ZeroDivisor); }
        lhs := v.value;
      }
      r := Ok(lhs);
    }

    method Prefixes() returns (r: Result<PpVal, EvError>)
      requires Valid()
      modifies this
      ensures Valid() && skip == old(skip) && Gives(r, EvUnary(old(Rest()), skip))
      decreases |items| - pos, 1
    {
      hide EvTernary, ApplyPrefix;
      if pos == |items| { return Err(BadSyntax); }
      var i := items[pos];
      if i == Op(Sub) || i == Op(Add) || i.Bang? || i.Tilde? {
        pos := pos + 1;
        r := Prefixes();
        if r.Ok? { r := Ok(ApplyPrefix(i, r.value)); }
      } else if i.Num? {
        pos := pos + 1;
        r := Ok(i.v);
      } else if i.LParen? {
        pos := pos + 1;
        r := Ternary();
        if r.Err? { return; }
        if !At(Item.RParen) { return Err(BadSyntax); }
        pos := pos + 1;
      } else {
        r := Err(BadSyntax);
      }
    }
  }
}
