/** Integer types, and folding of integer constant expressions. */
module ConstEval {
  import opened Wrappers
  import opened Bits
  import opened Residues

  // -------------------------------------------------------------------- types

  type Width = w: nat | w == 8 || w == 16 || w == 32 || w == 64 || w == 128 witness 8
  type BitCount = n: nat | 1 <= n <= 64 witness 1

  /** `_Bool`, or an integer of a storage width; a bit-precise one has a number of
      value bits. */
  datatype IntTy = Bool | Int(width: Width, signed: bool, bitint: Option<BitCount>)

  predicate TyOk(t: IntTy) {
    t.Int? && t.bitint.Some? ==>
      var n := t.bitint.value;
      (t.signed ==> n >= 2) && t.width == (if n <= 8 then 8 else if n <= 16 then 16 else if n <= 32 then 32 else 64)
  }

  const INT := Int(32, true, None)
  const UINT := Int(32, false, None)

  function ValueBits(t: IntTy): nat {
    match t case Bool => 1 case Int(w, _, n) => (match n case Some(k) => k case None => w)
  }

  predicate IsSigned(t: IntTy) {
    t.Int? && t.signed
  }

  /** `_Bool` and types narrower than `int` become `int`; bit-precise ones keep
      their type. */
  function Promote(t: IntTy): IntTy {
    if t.Bool? || (t.bitint.None? && t.width < 32) then INT else t
  }

  /** More value bits rank higher; at equal ones a standard type does. */
  function Rank(t: IntTy): nat {
    2 * ValueBits(t) + (if t.Int? && t.bitint.Some? then 0 else 1)
  }

  function ToUnsigned(t: IntTy): IntTy {
    if t.Int? then t.(signed := false) else UINT
  }

  function UsualArith(a: IntTy, b: IntTy): IntTy {
    Common(Promote(a), Promote(b))
  }

  /** The common type of two promoted types. */
  function Common(a: IntTy, b: IntTy): IntTy {
    if a == b then a
    else if IsSigned(a) == IsSigned(b) then if Rank(a) >= Rank(b) then a else b
    else
      var u, s := if IsSigned(a) then b else a, if IsSigned(a) then a else b;
      if Rank(u) >= Rank(s) then u
      else if ValueBits(s) > ValueBits(u) then s
      else ToUnsigned(s)
  }

  lemma TypesOk(a: IntTy, b: IntTy)
    requires TyOk(a) && TyOk(b)
    ensures TyOk(Promote(a)) && TyOk(Promote(b)) && TyOk(UsualArith(a, b))
    ensures Promote(a).Int? && Promote(b).Int? && UsualArith(a, b).Int?
  {
    var u, s := if IsSigned(Promote(a)) then Promote(b) else Promote(a), if IsSigned(Promote(a)) then Promote(a) else Promote(b);
    assert TyOk(ToUnsigned(s));
  }

  /** The common type does not depend on the order of the operands. */
  lemma UsualArithSymmetric(a: IntTy, b: IntTy)
    requires TyOk(a) && TyOk(b)
    ensures UsualArith(a, b) == UsualArith(b, a)
  {
    hide TyOk, Promote, Rank, ValueBits;
    TypesOk(a, b);
    var x, y := Promote(a), Promote(b);
    if x != y && IsSigned(x) == IsSigned(y) && Rank(x) == Rank(y) { SameRank(x, y); }
  }

  lemma SameRank(a: IntTy, b: IntTy)
    requires TyOk(a) && TyOk(b) && a.Int? && b.Int? && IsSigned(a) == IsSigned(b) && Rank(a) == Rank(b)
    ensures a == b
  { }

  // -------------------------------------------------------------- expressions

  datatype UnaryOp = Neg | Plus | BitNot | LNot
  datatype BinaryOp =
    | Add | Sub | Mul | Div | Rem | BitAnd | BitOr | BitXor
    | Shl | Shr | Eq | Ne | Lt | Le | Gt | Ge | LAnd | LOr

  datatype Expr =
    | IntLit(value: int, ty: IntTy)
    | Unary(uop: UnaryOp, arg: Expr)
    | Binary(op: BinaryOp, left: Expr, right: Expr)
    | Cond(cond: Expr, yes: Expr, no: Expr)
    | Cast(to: IntTy, inner: Expr)

  predicate IsCompare(op: BinaryOp) {
    op.Eq? || op.Ne? || op.Lt? || op.Le? || op.Gt? || op.Ge?
  }

  // ------------------------------------------------------------------ folding

  /** A constant, its value normalized to its type. */
  datatype CInt = CInt(value: int, ty: IntTy)

  /** `v` reduced to the value of type `t` it converts to: masked to the value
      bits, then sign-extended. Every 128-bit pattern is a value as it is, an
      unsigned one above the signed range being held as a negative number. */
  function ReduceToType(v: int, t: IntTy): int {
    match t
    case Bool => if v != 0 then 1 else 0
    case Int(_, signed, _) => if ValueBits(t) >= 128 then v else Norm(v, ValueBits(t), signed)
  }

  function NewCInt(v: int, t: IntTy): CInt {
    CInt(ReduceToType(v, t), t)
  }

  function Flag(b: bool): CInt {
    NewCInt(if b then 1 else 0, INT)
  }

  /** The evaluator works on 128-bit two's complement. */
  function Wrap128(v: int): int {
    Norm(v, 128, true)
  }

  function Pattern128(v: int): int {
    v % Pow2(128)
  }

  function FoldUnary(op: UnaryOp, a: CInt): CInt {
    match op
    case Neg => NewCInt(Wrap128(-a.value), Promote(a.ty))
    case Plus => NewCInt(a.value, Promote(a.ty))
    case BitNot => NewCInt(-a.value - 1, Promote(a.ty))
    case LNot => Flag(a.value == 0)
  }

  /** Division toward zero, and its remainder. */
  function Quot(x: int, y: int): int
    requires y != 0
  {
    if x >= 0 then if y > 0 then x / y else -(x / -y)
    else if y > 0 then -(-x / y) else -x / -y
  }

  function RemTowardZero(x: int, y: int): int
    requires y != 0
  {
    x - y * Quot(x, y)
  }

  /** The quotient rounds toward zero: what is left is smaller than the divisor and has
      the sign of what was divided. */
  lemma QuotRounds(x: int, y: int)
    requires y != 0
    ensures var r := x - y * Quot(x, y);
            (if y > 0 then -y < r < y else y < r < -y) && (x >= 0 ==> r >= 0) && (x <= 0 ==> r <= 0)
  {
    hide Quot;
    LeftOver(x, y);
  }

  lemma LeftOver(x: int, y: int)
    requires y != 0
    ensures var a, b := if x < 0 then -x else x, if y < 0 then -y else y;
            x - y * Quot(x, y) == (if x < 0 then -(a % b) else a % b) && 0 <= a % b < b
  {
    FourSigns(if x < 0 then -x else x, if y < 0 then -y else y);
  }

  lemma FourSigns(a: int, b: int)
    requires a >= 0 && b > 0
    ensures a - b * (a / b) == a % b && a - -b * -(a / b) == a % b
    ensures -a - b * -(a / b) == -(a % b) && -a - -b * (a / b) == -(a % b)
  {
    assert a == b * (a / b) + a % b;
    Signs(b, a / b);
  }

  lemma Signs(b: int, q: int)
    ensures b * -q == -(b * q) && -b * q == -(b * q) && -b * -q == b * q
  { }

  function FoldShift(op: BinaryOp, a: CInt, b: CInt): Option<CInt> {
    var ty := Promote(a.ty);
    var x := NewCInt(a.value, ty).value;
    if !(0 <= b.value < 128) then None
    else if op.Shl? then Some(NewCInt(Wrap128(Pattern128(x) * Pow2(b.value)), ty))
    else if IsSigned(ty) then Some(NewCInt(x / Pow2(b.value), ty))
    else Some(NewCInt(Wrap128(Pattern128(x) / Pow2(b.value)), ty))
  }

  function FoldCompare(op: BinaryOp, x: int, y: int): bool
    requires IsCompare(op)
  {
    match op case Eq => x == y case Ne => x != y case Lt => x < y case Le => x <= y case Gt => x > y case Ge => x >= y
  }

  /** The result before it is reduced to the type. */
  function FoldArith(op: BinaryOp, x: int, y: int, signed: bool): Option<int>
    requires !IsCompare(op) && !op.Shl? && !op.Shr? && !op.LAnd? && !op.LOr?
  {
    match op
    case Add => Some(Wrap128(Pattern128(x) + Pattern128(y)))
    case Sub => Some(Wrap128(Pattern128(x) - Pattern128(y)))
    case Mul => Some(Wrap128(Pattern128(x) * Pattern128(y)))
    case Div =>
      if y == 0 then None
      else if signed then Some(Wrap128(Quot(x, y)))
      else if Pattern128(y) == 0 then None
      else Some(Wrap128(Pattern128(x) / Pattern128(y)))
    case Rem =>
      if y == 0 then None
      else if signed then Some(RemTowardZero(x, y))
      else if Pattern128(y) == 0 then None
      else Some(Wrap128(Pattern128(x) % Pattern128(y)))
    case BitAnd => Some(Wrap128(Bitwise(AndOp, x, y, 128)))
    case BitOr => Some(Wrap128(Bitwise(OrOp, x, y, 128)))
    case BitXor => Some(Wrap128(Bitwise(XorOp, x, y, 128)))
  }

  function FoldBinary(op: BinaryOp, a: CInt, b: CInt): Option<CInt> {
    if op.LAnd? then Some(Flag(a.value != 0 && b.value != 0))
    else if op.LOr? then Some(Flag(a.value != 0 || b.value != 0))
    else if op.Shl? || op.Shr? then FoldShift(op, a, b)
    else
      var ty := UsualArith(a.ty, b.ty);
      var signed := IsSigned(ty);
      var x, y := NewCInt(a.value, ty).value, NewCInt(b.value, ty).value;
      if IsCompare(op) then
        Some(Flag(if signed || op.Eq? || op.Ne? then FoldCompare(op, x, y) else FoldCompare(op, Pattern128(x), Pattern128(y))))
      else
        match FoldArith(op, x, y, signed) case Some(v) => Some(NewCInt(v, ty)) case None => None
  }

  /** Fold `e`; `None` if it is not a constant. */
  function Eval(e: Expr): Option<CInt> {
    match e
    case IntLit(v, ty) => Some(NewCInt(v, ty))
    case Unary(op, arg) => (match Eval(arg) case None => None case Some(a) => Some(FoldUnary(op, a)))
    case Binary(op, l, r) =>
      (match Eval(l)
       case None => None
       case Some(a) =>
         if op.LAnd? && a.value == 0 then Some(Flag(false))
         else if op.LOr? && a.value != 0 then Some(Flag(true))
         else match Eval(r) case None => None case Some(b) => FoldBinary(op, a, b))
    case Cond(c, yes, no) =>
      (match Eval(c)
       case None => None
       case Some(x) =>
         match Eval(if x.value != 0 then yes else no)
         case None => None
         case Some(v) =>
           match Eval(if x.value != 0 then no else yes)
           case Some(o) => Some(NewCInt(v.value, UsualArith(v.ty, o.ty)))
           case None => Some(v))
    case Cast(ty, inner) => (match Eval(inner) case None => None case Some(a) => Some(NewCInt(a.value, ty)))
  }

  // ------------------------------------------------- the checked, lowered form

  /** The static type of an expression. */
  function TypeOf(e: Expr): IntTy {
    match e
    case IntLit(_, ty) => ty
    case Unary(op, arg) => if op.LNot? then INT else Promote(TypeOf(arg))
    case Binary(op, l, r) =>
      if IsCompare(op) || op.LAnd? || op.LOr? then INT
      else if op.Shl? || op.Shr? then Promote(TypeOf(l))
      else UsualArith(TypeOf(l), TypeOf(r))
    case Cond(_, yes, no) => UsualArith(TypeOf(yes), TypeOf(no))
    case Cast(ty, _) => ty
  }

  /** The width a value of type `t` is stored and computed in. */
  function StorageWidth(t: IntTy): Width {
    match t case Bool => 8 case Int(w, _, _) => w
  }

  /** A stored pattern of width `w` read as a signed number. */
  function SignedOf(bits: int, w: nat): int {
    Norm(bits, w, true)
  }

  /** Truncate, or extend as the source's signedness says. */
  function IntResize(bits: int, from: nat, signed: bool, to: nat): int {
    if from == to then bits
    else if to > from then if signed then SignedOf(bits, from) % Pow2(to) else bits
    else bits % Pow2(to)
  }

  function WorkBits(w: nat): nat {
    if w <= 32 then 32 else 64
  }

  /** A computed pattern made a valid one of its type: a bit-precise value that
      does not fill its storage is masked, or shifted up and back down. */
  function NormalizeBitInt(bits: int, t: IntTy): int {
    if !(t.Int? && t.bitint.Some? && t.bitint.value < t.width) then bits
    else
      var n := t.bitint.value;
      if t.signed then
        var w := WorkBits(t.width);
        var up := (IntResize(bits, t.width, true, w) * Pow2(w - n)) % Pow2(w);
        IntResize((SignedOf(up, w) / Pow2(w - n)) % Pow2(w), w, true, t.width)
      else Bitwise(AndOp, bits, Pow2(n) - 1, t.width)
  }

  /** Conversion of a stored pattern from one type to another. */
  function Convert(bits: int, from: IntTy, to: IntTy): int {
    if from == to then bits
    else if to.Bool? then if bits != 0 then 1 else 0
    else NormalizeBitInt(IntResize(bits, StorageWidth(from), IsSigned(from), StorageWidth(to)), to)
  }

  /** One machine operation on patterns of width `w`; `None` where it has no
      defined result. */
  function MachineArith(op: BinaryOp, x: int, y: int, w: nat, signed: bool): Option<int>
    requires !IsCompare(op) && !op.Shl? && !op.Shr? && !op.LAnd? && !op.LOr?
  {
    match op
    case Add => Some((x + y) % Pow2(w))
    case Sub => Some((x - y) % Pow2(w))
    case Mul => Some((x * y) % Pow2(w))
    case Div =>
      if y == 0 then None
      else if !signed then Some(x / y)
      else
        var a, b := SignedOf(x, w), SignedOf(y, w);
        if b == 0 || (b == -1 && 2 * a == 0 - Pow2(w)) then None else Some(Quot(a, b) % Pow2(w))
    case Rem =>
      if y == 0 then None
      else if !signed then Some(x % y)
      else
        var a, b := SignedOf(x, w), SignedOf(y, w);
        if b == 0 || (b == -1 && 2 * a == 0 - Pow2(w)) then None else Some(RemTowardZero(a, b) % Pow2(w))
    case BitAnd => Some(Bitwise(AndOp, x, y, w))
    case BitOr => Some(Bitwise(OrOp, x, y, w))
    case BitXor => Some(Bitwise(XorOp, x, y, w))
  }

  function MachineCompare(op: BinaryOp, x: int, y: int, w: nat, signed: bool): bool
    requires IsCompare(op)
  {
    var a, b := if signed then SignedOf(x, w) else x, if signed then SignedOf(y, w) else y;
    match op
    case Eq => x == y
    case Ne => x != y
    case Lt => a < b
    case Le => a <= b
    case Gt => b < a
    case Ge => b <= a
  }

  /** A shift by a pattern already resized to the value's width; too large a
      count has no defined result. */
  function MachineShift(op: BinaryOp, x: int, count: int, w: nat, signed: bool): Option<int> {
    if !(0 <= count < w) then None
    else if op.Shl? then Some((x * Pow2(count)) % Pow2(w))
    else if signed then Some((SignedOf(x, w) / Pow2(count)) % Pow2(w))
    else Some(x / Pow2(count))
  }

  /** What the lowered form of `e` computes: the stored pattern of a value of
      type `TypeOf(e)`. A shift count outside the type's width, even one that the
      resize would bring back inside, has no defined result. */
  function Exec(e: Expr): Option<int> {
    match e
    case IntLit(v, ty) => Some(v % Pow2(StorageWidth(ty)))
    case Unary(op, arg) =>
      (match Exec(arg)
       case None => None
       case Some(bits) =>
         if op.LNot? then Some(if bits == 0 then 1 else 0)
         else
           var ty := Promote(TypeOf(arg));
           var x, m := Convert(bits, TypeOf(arg), ty), Pow2(StorageWidth(ty));
           match op
           case Neg => Some(NormalizeBitInt((0 - x) % m, ty))
           case BitNot => Some(NormalizeBitInt(Bitwise(XorOp, x, m - 1, StorageWidth(ty)), ty))
           case _ => Some(x))
    case Binary(op, l, r) =>
      (match Exec(l)
       case None => None
       case Some(x) =>
         if op.LAnd? && x == 0 then Some(0)
         else if op.LOr? && x != 0 then Some(1)
         else match Exec(r)
              case None => None
              case Some(y) => ExecBinary(op, x, TypeOf(l), y, TypeOf(r)))
    case Cond(c, yes, no) =>
      (match Exec(c)
       case None => None
       case Some(x) =>
         var arm := if x != 0 then yes else no;
         match Exec(arm)
         case None => None
         case Some(v) => Some(Convert(v, TypeOf(arm), UsualArith(TypeOf(yes), TypeOf(no)))))
    case Cast(ty, inner) => (match Exec(inner) case None => None case Some(bits) => Some(Convert(bits, TypeOf(inner), ty)))
  }

  function ExecBinary(op: BinaryOp, x: int, tx: IntTy, y: int, ty: IntTy): Option<int> {
    if op.LAnd? || op.LOr? then Some(if y != 0 then 1 else 0)
    else if op.Shl? || op.Shr? then
      var t, u := Promote(tx), Promote(ty);
      var w := StorageWidth(t);
      var count := Convert(y, ty, u);
      var number := if IsSigned(u) then SignedOf(count, StorageWidth(u)) else count;
      if !(0 <= number < w) then None
      else
        match MachineShift(op, Convert(x, tx, t), IntResize(count, StorageWidth(u), IsSigned(u), w), w, IsSigned(t))
        case None => None
        case Some(v) => Some(NormalizeBitInt(v, t))
    else
      var t := UsualArith(tx, ty);
      var w := StorageWidth(t);
      var a, b := Convert(x, tx, t), Convert(y, ty, t);
      if IsCompare(op) then Some(if MachineCompare(op, a, b, w, IsSigned(t)) then 1 else 0)
      else match MachineArith(op, a, b, w, IsSigned(t)) case None => None case Some(v) => Some(NormalizeBitInt(v, t))
  }
}
