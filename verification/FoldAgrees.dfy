/** Folding a constant expression gives what its lowered form computes. */
module FoldAgrees {
  import opened Wrappers
  import opened Bits
  import opened Residues
  import opened ConstEval

  /** The numbers constants are held as: signed ones of 128 bits. */
  ghost predicate Held(v: int) {
    InRange(v, 128, true)
  }

  /** `v` is a constant of type `t`. */
  ghost predicate Normal(v: int, t: IntTy) {
    match t
    case Bool => 0 <= v <= 1
    case Int(_, signed, _) => if ValueBits(t) >= 128 then Held(v) else InRange(v, ValueBits(t), signed)
  }

  /** `bits` is how `v` is stored. */
  ghost predicate Repr(bits: int, v: int, t: IntTy) {
    Normal(v, t) && bits == v % Pow2(StorageWidth(t))
  }

  lemma ReduceIs(v: int, t: IntTy)
    requires t.Int? && Held(v)
    ensures Normal(ReduceToType(v, t), t) && Congruent(ReduceToType(v, t), v, ValueBits(t))
  {
    NormIs(v, ValueBits(t), t.signed);
  }

  lemma ReduceNormal(v: int, t: IntTy)
    requires Normal(v, t)
    ensures ReduceToType(v, t) == v
  {
    if t.Int? && ValueBits(t) < 128 { NormUnique(v, v, ValueBits(t), t.signed); }
  }

  lemma NormalHeld(v: int, t: IntTy)
    requires TyOk(t) && Normal(v, t)
    ensures Held(v)
  {
    if t.Bool? { Pow2Grows(2, 128); }
    else if ValueBits(t) < 128 { RangeGrows(v, ValueBits(t), 128, t.signed); }
  }

  /** A value fits its storage, and can be read back from it. */
  lemma ReadBack(v: int, t: IntTy)
    requires TyOk(t) && Normal(v, t)
    ensures var w := StorageWidth(t); var bits := v % Pow2(w);
            && ValueBits(t) <= w && 0 <= bits < Pow2(w) && Congruent(bits, v, w)
            && (bits == 0 <==> v == 0)
            && (if IsSigned(t) then SignedOf(bits, w) == v && InRange(v, w, true)
                else bits == Pattern128(v) && (w < 128 ==> bits == v))
  {
    hide Norm, Pow2, InRange;
    var w := StorageWidth(t);
    CongruentMod(v, w);
    SignedZero(w);
    if t.Int? && (t.signed || w == 128) {
      if ValueBits(t) < w { RangeGrows(v, ValueBits(t), w, true); }
      NormUnique(v, v % Pow2(w), w, true);
    } else {
      UnsignedBack(v, t);
    }
  }

  lemma UnsignedBack(v: int, t: IntTy)
    requires TyOk(t) && Normal(v, t) && !IsSigned(t) && StorageWidth(t) < 128
    ensures ValueBits(t) <= StorageWidth(t) && v % Pow2(StorageWidth(t)) == v == Pattern128(v)
  {
    var w := StorageWidth(t);
    Pow2Grows(1, w);
    Pow2Zero();
    if t.Int? { Pow2Grows(ValueBits(t), w); }
    Pow2Grows(w, 128);
    DivModUnique(v, Pow2(w), 0, v);
    DivModUnique(v, Pow2(128), 0, v);
  }

  lemma Pow2Zero()
    ensures Pow2(0) == 1 && Pow2(1) == 2
  { }

  lemma SignedZero(w: nat)
    ensures SignedOf(0, w) == 0 && 0 % Pow2(w) == 0
  {
    DivModUnique(0, Pow2(w), 0, 0);
  }

  // ------------------------------------------------------------- normalization

  /** Shifting a pattern up by `w - n` and arithmetically back down sign-extends
      its low `n` bits. */
  lemma UpAndDown(x: int, n: nat, w: nat)
    requires n <= w
    ensures SignedOf((x * Pow2(w - n)) % Pow2(w), w) / Pow2(w - n) == Norm(x, n, true)
  {
    hide Pow2;
    var k := Pow2(w - n);
    var r := Norm(x, n, true);
    NormIs(x, n, true);
    Pow2Adds(n, w - n);
    var q := Quotient(x, r, n);
    Spread2(r, Pow2(n), q, k);
    CongruentBy(x * k, r * k, w, q);
    CongruentMod(x * k, w);
    ScaledRange(r, Pow2(n), k);
    NormUnique(r * k, (x * k) % Pow2(w), w, true);
    DivModUnique(r * k, k, r, 0);
  }

  lemma Spread2(r: int, m: int, q: int, k: int)
    ensures (r + m * q) * k == r * k + (m * k) * q
  {
    assert (r + m * q) * k == r * k + (m * q) * k;
    assert (m * q) * k == (m * k) * q;
  }

  lemma ScaledRange(r: int, m: int, k: int)
    requires 0 - m <= 2 * r < m && k >= 1
    ensures 0 - m * k <= 2 * (r * k) < m * k
  { }

  /** Masking keeps the low bits. */
  lemma {:induction false} MaskIs(x: int, n: nat, w: nat)
    requires n <= w
    ensures Bitwise(AndOp, x, Pow2(n) - 1, w) == x % Pow2(n)
    decreases w
  {
    hide Bitwise, Pow2;
    if n == 0 {
      MaskNone(x, w);
    } else {
      MaskIs(x / 2, n - 1, w - 1);
      MaskMore(x, n, w);
    }
  }

  lemma MaskNone(x: int, w: nat)
    ensures Bitwise(AndOp, x, Pow2(0) - 1, w) == x % Pow2(0)
  {
    hide Bitwise;
    AndZero(x, w);
  }

  lemma MaskMore(x: int, n: nat, w: nat)
    requires 0 < n <= w && Bitwise(AndOp, x / 2, Pow2(n - 1) - 1, w - 1) == (x / 2) % Pow2(n - 1)
    ensures Bitwise(AndOp, x, Pow2(n) - 1, w) == x % Pow2(n)
  {
    hide Bitwise, Pow2;
    MaskStep(x, n, w);
    LowBits2(x, n);
  }

  lemma MaskStep(x: int, n: nat, w: nat)
    requires n > 0 && w > 0
    ensures Bitwise(AndOp, x, Pow2(n) - 1, w) == x % 2 + 2 * Bitwise(AndOp, x / 2, Pow2(n - 1) - 1, w - 1)
  {
    assert (Pow2(n) - 1) % 2 == 1 && (Pow2(n) - 1) / 2 == Pow2(n - 1) - 1;
  }

  lemma {:induction false} AndZero(x: int, w: nat)
    ensures Bitwise(AndOp, x, 0, w) == 0
    decreases w
  {
    if w > 0 { AndZero(x / 2, w - 1); }
  }

  lemma LowBits2(x: int, k: nat)
    requires k > 0
    ensures x % Pow2(k) == x % 2 + 2 * ((x / 2) % Pow2(k - 1))
  {
    var m := Pow2(k - 1);
    var h := x / 2;
    assert h == m * (h / m) + h % m;
    Assoc(2, m, h / m);
    DivModUnique(x, 2 * m, h / m, x % 2 + 2 * (h % m));
  }

  /** A computed pattern with the right low bits is normalized to the stored form
      of the reduced value. */
  lemma NormalizeIs(bits: int, z: int, t: IntTy)
    requires TyOk(t) && t.Int? && Held(z) && 0 <= bits < Pow2(t.width) && Congruent(bits, z, ValueBits(t))
    ensures Repr(NormalizeBitInt(bits, t), ReduceToType(z, t), t)
  {
    hide Pow2, Norm, InRange, IntResize, SignedOf, Bitwise;
    var n, w := ValueBits(t), t.width;
    var r := ReduceToType(z, t);
    ReduceIs(z, t);
    if n == w {
      CongruentMod(r, w);
      DivModUnique(bits, Pow2(w), 0, bits);
    } else if t.signed {
      SignedNormalize(bits, z, t);
    } else {
      MaskIs(bits, n, w);
      UnsignedNorm(z, n);
      ReadBack(r, t);
    }
  }

  lemma UnsignedNorm(z: int, n: nat)
    ensures Norm(z, n, false) == z % Pow2(n)
  { }

  lemma SignedNormalize(bits: int, z: int, t: IntTy)
    requires TyOk(t) && t.Int? && t.signed && ValueBits(t) < t.width && Held(z)
    requires 0 <= bits < Pow2(t.width) && Congruent(bits, z, ValueBits(t))
    ensures NormalizeBitInt(bits, t) == ReduceToType(z, t) % Pow2(t.width)
  {
    hide Pow2, Norm, InRange, IntResize, SignedOf, TyOk;
    var n, tw := ValueBits(t), t.width;
    WideEnough(t);
    var w := WorkBits(tw);
    var x := IntResize(bits, tw, true, w);
    Resized(bits, tw, w);
    CongruentLess(x, bits, n, tw);
    SameNorm(x, z, n);
    UpAndDown(x, n, w);
    var r := Norm(x, n, true);
    RangeWide(x, n, w);
    Truncated(r, w, tw);
    assert NormalizeBitInt(bits, t) == IntResize(r % Pow2(w), w, true, tw);
    ReduceSigned(z, t);
  }

  /** Only a bit-precise type leaves bits unused, and it has at most 64. */
  lemma WideEnough(t: IntTy)
    requires TyOk(t) && t.Int? && ValueBits(t) < t.width
    ensures ValueBits(t) <= t.width <= WorkBits(t.width)
  { }

  lemma ReduceSigned(z: int, t: IntTy)
    requires TyOk(t) && t.Int? && t.signed && ValueBits(t) < t.width
    ensures ReduceToType(z, t) == Norm(z, ValueBits(t), true)
  { }

  lemma SameNorm(x: int, z: int, n: nat)
    requires Congruent(x, z, n)
    ensures Norm(x, n, true) == Norm(z, n, true)
  { }

  lemma RangeWide(x: int, n: nat, w: nat)
    requires n <= w
    ensures InRange(Norm(x, n, true), w, true)
  {
    NormIs(x, n, true);
    RangeGrows(Norm(x, n, true), n, w, true);
  }

  /** Widening keeps the low bits. */
  lemma Resized(bits: int, from: nat, to: nat)
    requires 0 <= bits < Pow2(from) && from <= to
    ensures var x := IntResize(bits, from, true, to); Congruent(x, bits, from)
  {
    if from < to {
      NormIs(bits, from, true);
      CongruentMod(SignedOf(bits, from), to);
      CongruentLess(SignedOf(bits, from) % Pow2(to), SignedOf(bits, from), from, to);
    }
  }

  lemma Truncated(r: int, w: nat, to: nat)
    requires to <= w && InRange(r, w, true)
    ensures IntResize(r % Pow2(w), w, true, to) == r % Pow2(to)
  {
    if to < w {
      CongruentMod(r, w);
      CongruentLess(r % Pow2(w), r, to, w);
    }
  }

  // --------------------------------------------------------------- conversion

  lemma ConvertIs(bits: int, v: int, from: IntTy, to: IntTy)
    requires TyOk(from) && TyOk(to) && Repr(bits, v, from)
    ensures Repr(Convert(bits, from, to), ReduceToType(v, to), to)
  {
    hide Pow2, Norm, InRange, NormalizeBitInt, IntResize;
    ReadBack(v, from);
    if from == to {
      ReduceNormal(v, to);
    } else if to.Bool? {
      ReadBack(ReduceToType(v, Bool), Bool);
    } else {
      ResizeIs(v, from, to);
      NormalHeld(v, from);
      CongruentMod(v, to.width);
      ReadBackWidth(to);
      CongruentLess(v % Pow2(to.width), v, ValueBits(to), to.width);
      NormalizeIs(v % Pow2(to.width), v, to);
    }
  }

  lemma ReadBackWidth(t: IntTy)
    requires TyOk(t)
    ensures ValueBits(t) <= StorageWidth(t)
  { }

  /** Resizing a stored value stores it at the new width. */
  lemma ResizeIs(v: int, from: IntTy, to: IntTy)
    requires TyOk(from) && Normal(v, from)
    ensures IntResize(v % Pow2(StorageWidth(from)), StorageWidth(from), IsSigned(from), StorageWidth(to)) == v % Pow2(StorageWidth(to))
  {
    hide Pow2, Norm, InRange, Normal;
    var f, t := StorageWidth(from), StorageWidth(to);
    ReadBack(v, from);
    if t > f {
      if !IsSigned(from) {
        Pow2Grows(f, t);
        DivModUnique(v, Pow2(t), 0, v);
      }
    } else if t < f {
      CongruentLess(v % Pow2(f), v, t, f);
    }
  }

  // -------------------------------------------------------------- arithmetic

  lemma Wrap128Is(z: int, w: nat)
    requires w <= 128
    ensures Congruent(Wrap128(z), z, w) && Congruent(Pattern128(z), z, w) && Held(Wrap128(z))
  {
    NormIs(z, 128, true);
    CongruentMod(z, 128);
    CongruentLess(Wrap128(z), z, w, 128);
    CongruentLess(Pattern128(z), z, w, 128);
  }

  /** A machine result and a folded one with the same residue agree once
      normalized and reduced. */
  lemma ArithRepr(m: int, z: int, t: IntTy)
    requires TyOk(t) && t.Int? && Held(z) && 0 <= m < Pow2(t.width) && Congruent(m, z, t.width)
    ensures Repr(NormalizeBitInt(m, t), ReduceToType(z, t), t)
  {
    hide Pow2;
    ReadBackWidth(t);
    CongruentLess(m, z, ValueBits(t), t.width);
    NormalizeIs(m, z, t);
  }

  lemma CongruentTrans(x: int, y: int, z: int, n: nat)
    requires Congruent(x, y, n) && Congruent(y, z, n)
    ensures Congruent(x, z, n)
  { }

  /** The wrapped 128-bit result of ring operations has the machine's residue. */
  lemma RingAgrees(op: BinaryOp, x: int, y: int, a: int, b: int, w: nat, signed: bool)
    requires (op.Add? || op.Sub? || op.Mul?) && w <= 128 && Congruent(a, x, w) && Congruent(b, y, w)
    ensures FoldArith(op, x, y, signed).Some? && MachineArith(op, a, b, w, signed).Some?
    ensures var m := MachineArith(op, a, b, w, signed).value;
            0 <= m < Pow2(w) && Congruent(m, FoldArith(op, x, y, signed).value, w) && Held(FoldArith(op, x, y, signed).value)
  {
    hide Pow2, Norm;
    Wrap128Is(x, w);
    Wrap128Is(y, w);
    var p, q := Pattern128(x), Pattern128(y);
    CongruentAdd(p, a, q, b, w);
    CongruentMul(p, a, q, b, w);
    var z := if op.Add? then p + q else if op.Sub? then p - q else p * q;
    var m := if op.Add? then a + b else if op.Sub? then a - b else a * b;
    Wrap128Is(z, w);
    CongruentMod(m, w);
  }

  lemma BitsAgree(op: BinaryOp, x: int, y: int, a: int, b: int, w: nat, signed: bool)
    requires (op.BitAnd? || op.BitOr? || op.BitXor?) && w <= 128 && Congruent(a, x, w) && Congruent(b, y, w)
    ensures FoldArith(op, x, y, signed).Some? && MachineArith(op, a, b, w, signed).Some?
    ensures var m := MachineArith(op, a, b, w, signed).value;
            0 <= m < Pow2(w) && Congruent(m, FoldArith(op, x, y, signed).value, w) && Held(FoldArith(op, x, y, signed).value)
  {
    hide Pow2, Norm, Bitwise;
    var o := if op.BitAnd? then AndOp else if op.BitOr? then OrOp else XorOp;
    var z, m := Bitwise(o, x, y, 128), Bitwise(o, a, b, w);
    BitwiseResidues(o, a, b, x, y, w);
    BitwiseLow(o, x, y, w, 128);
    Wrap128Is(z, w);
    DivModUnique(m, Pow2(w), 0, m);
  }

  /** A remainder lies between zero and what was divided. */
  lemma RemBounds(x: int, y: int)
    requires y != 0
    ensures if x < 0 then x <= RemTowardZero(x, y) <= 0 else 0 <= RemTowardZero(x, y) <= x
  {
    var a, b := if x < 0 then 0 - x else x, if y < 0 then 0 - y else y;
    DivBounds(a, b);
    SignedQuot(x, y);
  }

  lemma DivBounds(a: int, b: int)
    requires a >= 0 && b >= 1
    ensures 0 <= a / b <= a && 0 <= b * (a / b) <= a
  {
    assert a == b * (a / b) + a % b;
    var q := a / b;
    if q >= 1 { assert b * q >= q; }
  }

  /** Division toward zero is division of magnitudes with the sign put back. */
  lemma SignedQuot(x: int, y: int)
    requires y != 0
    ensures var a, b := if x < 0 then 0 - x else x, if y < 0 then 0 - y else y;
            var q := a / b;
            && Quot(x, y) == (if (x < 0) == (y < 0) then q else 0 - q)
            && RemTowardZero(x, y) == (if x < 0 then 0 - (a - b * q) else a - b * q)
  {
    var a, b := if x < 0 then 0 - x else x, if y < 0 then 0 - y else y;
    var q := a / b;
    assert (0 - b) * q == 0 - b * q && b * (0 - q) == 0 - b * q && (0 - b) * (0 - q) == b * q;
  }

  lemma DivisionAgrees(op: BinaryOp, x: int, y: int, t: IntTy)
    requires (op.Div? || op.Rem?) && TyOk(t) && t.Int? && Normal(x, t) && Normal(y, t)
    requires MachineArith(op, x % Pow2(t.width), y % Pow2(t.width), t.width, t.signed).Some?
    ensures FoldArith(op, x, y, t.signed).Some?
    ensures var m := MachineArith(op, x % Pow2(t.width), y % Pow2(t.width), t.width, t.signed).value;
            && 0 <= m < Pow2(t.width) && Congruent(m, FoldArith(op, x, y, t.signed).value, t.width)
            && Held(FoldArith(op, x, y, t.signed).value)
  {
    hide Pow2, Norm, InRange, Normal, Quot, RemTowardZero, TyOk;
    var w := t.width;
    ReadBack(x, t);
    ReadBack(y, t);
    if t.signed {
      var z := if op.Div? then Quot(x, y) else RemTowardZero(x, y);
      CongruentMod(z, w);
      Wrap128Is(z, w);
      NormalHeld(x, t);
      RemBounds(x, y);
      if op.Rem? { BetweenHeld(x, z); }
    } else {
      var a, b := Pattern128(x), Pattern128(y);
      DivBounds(a, b);
      var z := if op.Div? then a / b else a % b;
      Wrap128Is(z, w);
      assert 0 <= z <= a;
    }
  }

  lemma BetweenHeld(x: int, z: int)
    requires Held(x) && if x < 0 then x <= z <= 0 else 0 <= z <= x
    ensures Held(z)
  { }

  lemma ArithAgrees(op: BinaryOp, x: int, y: int, t: IntTy)
    requires !IsCompare(op) && !op.Shl? && !op.Shr? && !op.LAnd? && !op.LOr?
    requires TyOk(t) && t.Int? && Normal(x, t) && Normal(y, t)
    requires MachineArith(op, x % Pow2(t.width), y % Pow2(t.width), t.width, t.signed).Some?
    ensures FoldArith(op, x, y, t.signed).Some?
    ensures var m := MachineArith(op, x % Pow2(t.width), y % Pow2(t.width), t.width, t.signed).value;
            Repr(NormalizeBitInt(m, t), ReduceToType(FoldArith(op, x, y, t.signed).value, t), t)
  {
    hide Pow2, Norm, InRange, Normal, TyOk, MachineArith, FoldArith, NormalizeBitInt;
    var w := t.width;
    var a, b := x % Pow2(w), y % Pow2(w);
    CongruentMod(x, w);
    CongruentMod(y, w);
    if op.Add? || op.Sub? || op.Mul? { RingAgrees(op, x, y, a, b, w, t.signed); }
    else if op.Div? || op.Rem? { DivisionAgrees(op, x, y, t); }
    else { BitsAgree(op, x, y, a, b, w, t.signed); }
    ArithRepr(MachineArith(op, a, b, w, t.signed).value, FoldArith(op, x, y, t.signed).value, t);
  }

  lemma CompareAgrees(op: BinaryOp, x: int, y: int, t: IntTy)
    requires IsCompare(op) && TyOk(t) && t.Int? && Normal(x, t) && Normal(y, t)
    ensures MachineCompare(op, x % Pow2(t.width), y % Pow2(t.width), t.width, t.signed)
            == if t.signed || op.Eq? || op.Ne? then FoldCompare(op, x, y) else FoldCompare(op, Pattern128(x), Pattern128(y))
  {
    hide Pow2, Norm, InRange, Normal, TyOk;
    ReadBack(x, t);
    ReadBack(y, t);
    if x % Pow2(t.width) == y % Pow2(t.width) { SameStored(x, y, t); }
  }

  lemma SameStored(x: int, y: int, t: IntTy)
    requires TyOk(t) && t.Int? && Normal(x, t) && Normal(y, t) && x % Pow2(t.width) == y % Pow2(t.width)
    ensures x == y
  {
    hide Pow2;
    ReadBack(x, t);
    ReadBack(y, t);
    if t.width == 128 {
      NormUnique(x, y, 128, true);
      NormUnique(y, y, 128, true);
    }
  }

  lemma ShiftAgrees(op: BinaryOp, x: int, n: nat, t: IntTy)
    requires (op.Shl? || op.Shr?) && TyOk(t) && t.Int? && Normal(x, t) && n < t.width
    ensures var m := MachineShift(op, x % Pow2(t.width), n, t.width, t.signed);
            var z := if op.Shl? then Wrap128(Pattern128(x) * Pow2(n))
                     else if t.signed then x / Pow2(n) else Wrap128(Pattern128(x) / Pow2(n));
            m.Some? && Repr(NormalizeBitInt(m.value, t), ReduceToType(z, t), t)
  {
    hide Pow2, Norm, InRange, Normal, TyOk, NormalizeBitInt;
    var w := t.width;
    var a := x % Pow2(w);
    ReadBack(x, t);
    var m := MachineShift(op, a, n, w, t.signed).value;
    if op.Shl? {
      Wrap128Is(x, w);
      CongruentMul(Pattern128(x), a, Pow2(n), Pow2(n), w);
      var z := Pattern128(x) * Pow2(n);
      Wrap128Is(z, w);
      CongruentMod(a * Pow2(n), w);
      ArithRepr(m, Wrap128(z), t);
    } else if t.signed {
      CongruentMod(x / Pow2(n), w);
      NormalHeld(x, t);
      FloorBounds(x, Pow2(n));
      BetweenHeld(x, x / Pow2(n));
      ArithRepr(m, x / Pow2(n), t);
    } else {
      DivBounds(a, Pow2(n));
      Wrap128Is(a / Pow2(n), w);
      ArithRepr(m, Wrap128(a / Pow2(n)), t);
    }
  }

  lemma FloorBounds(x: int, m: int)
    requires m >= 1
    ensures if x < 0 then x <= x / m <= 0 else 0 <= x / m <= x
  {
    if x >= 0 { DivBounds(x, m); } else { NegativeFloor(x, m, x / m, x % m); }
  }

  lemma NegativeFloor(x: int, m: int, q: int, r: int)
    requires m >= 1 && x < 0 && x == m * q + r && 0 <= r < m
    ensures x <= q <= 0
  {
    if q >= 0 { Multiples(m, q); }
    else {
      var k := -q;
      assert m * q == -(m * k);
      assert m * k - k == (m - 1) * k;
      if m > 1 { Multiples(m - 1, k); }
    }
  }

  // ------------------------------------------------------------- main results

  /** Types the language has, and literals that are values of their types. */
  ghost predicate ExprOk(e: Expr) {
    match e
    case IntLit(v, ty) => TyOk(ty) && Normal(v, ty)
    case Unary(_, arg) => ExprOk(arg)
    case Binary(_, l, r) => ExprOk(l) && ExprOk(r)
    case Cond(c, yes, no) => ExprOk(c) && ExprOk(yes) && ExprOk(no)
    case Cast(ty, inner) => TyOk(ty) && ExprOk(inner)
  }

  /** Every conditional that is computed folds to its own type. */
  ghost predicate Settled(e: Expr) {
    match e
    case IntLit(_, _) => true
    case Unary(_, arg) => Settled(arg)
    case Binary(_, l, r) => Settled(l) && Settled(r)
    case Cond(c, yes, no) => Settled(c) && Settled(yes) && Settled(no) && (Exec(e).Some? ==> CondSettled(e))
    case Cast(_, inner) => Settled(inner)
  }

  /** The taken arm's type, made common with the constant the other arm folds to, is
      the conditional's; where the other arm does not fold, it is so already. */
  ghost predicate CondSettled(e: Expr)
    requires e.Cond?
  {
    match Eval(e.cond)
    case None => true
    case Some(x) =>
      var taken, other := if x.value != 0 then e.yes else e.no, if x.value != 0 then e.no else e.yes;
      TypeOf(e) == match Eval(other) case None => TypeOf(taken) case Some(o) => UsualArith(TypeOf(taken), o.ty)
  }

  lemma {:induction false} TypeOfOk(e: Expr)
    requires ExprOk(e)
    ensures TyOk(TypeOf(e))
  {
    match e
    case IntLit(_, _) =>
    case Unary(_, arg) => TypeOfOk(arg); TypesOk(TypeOf(arg), TypeOf(arg));
    case Binary(_, l, r) => TypeOfOk(l); TypeOfOk(r); TypesOk(TypeOf(l), TypeOf(r));
    case Cond(_, yes, no) => TypeOfOk(yes); TypeOfOk(no); TypesOk(TypeOf(yes), TypeOf(no));
    case Cast(_, _) =>
  }

  lemma FoldedType(op: BinaryOp, a: CInt, b: CInt)
    requires FoldBinary(op, a, b).Some?
    ensures FoldBinary(op, a, b).value.ty
            == if IsCompare(op) || op.LAnd? || op.LOr? then INT
               else if op.Shl? || op.Shr? then Promote(a.ty) else UsualArith(a.ty, b.ty)
  {
    hide ReduceToType, Wrap128, FoldArith;
  }

  /** The folded constant is the stored value's number. */
  ghost predicate Agrees(e: Expr) {
    Exec(e).Some? ==> Eval(e).Some? && Eval(e).value.ty == TypeOf(e) && Repr(Exec(e).value, Eval(e).value.value, TypeOf(e))
  }

  /** So it is for every part of `e`. */
  ghost predicate AgreesThroughout(e: Expr) {
    && Agrees(e)
    && match e
       case IntLit(_, _) => true
       case Unary(_, arg) => AgreesThroughout(arg)
       case Binary(_, l, r) => AgreesThroughout(l) && AgreesThroughout(r)
       case Cond(c, yes, no) => AgreesThroughout(c) && AgreesThroughout(yes) && AgreesThroughout(no)
       case Cast(_, inner) => AgreesThroughout(inner)
  }

  lemma PromoteKeeps(v: int, t: IntTy)
    requires TyOk(t) && Normal(v, t)
    ensures ReduceToType(v, Promote(t)) == v && Normal(v, Promote(t)) && TyOk(Promote(t)) && Promote(t).Int?
  {
    hide Pow2, Norm;
    if t == Promote(t) {
    } else if t.Bool? {
      BelowPow2(32);
    } else {
      RangeGrows(v, t.width, 32, t.signed);
    }
    ReduceNormal(v, Promote(t));
  }

  lemma FlagRepr(b: bool)
    ensures Repr(if b then 1 else 0, Flag(b).value, INT) && Flag(b).ty == INT
  {
    hide Norm;
    Pow2Is32();
    var v := if b then 1 else 0;
    ReduceNormal(v, INT);
  }

  lemma ZeroIff(bits: int, v: int, t: IntTy)
    requires TyOk(t) && Repr(bits, v, t)
    ensures bits == 0 <==> v == 0
  {
    ReadBack(v, t);
  }

  lemma UnaryAgrees(op: UnaryOp, bits: int, a: CInt)
    requires TyOk(a.ty) && Repr(bits, a.value, a.ty) && !op.LNot?
    ensures var t := Promote(a.ty); var x, m := Convert(bits, a.ty, t), Pow2(StorageWidth(t));
            var r := match op case Neg => NormalizeBitInt((0 - x) % m, t)
                              case BitNot => NormalizeBitInt(Bitwise(XorOp, x, m - 1, StorageWidth(t)), t)
                              case _ => x;
            FoldUnary(op, a).ty == t && Repr(r, FoldUnary(op, a).value, t)
  {
    hide Pow2, Norm, InRange, Normal, TyOk, NormalizeBitInt, Convert, Bitwise;
    var t := Promote(a.ty);
    PromoteKeeps(a.value, a.ty);
    ConvertIs(bits, a.value, a.ty, t);
    var x, w := Convert(bits, a.ty, t), t.width;
    ReadBack(a.value, t);
    match op
    case Neg =>
      ReprCongruent(0, w);
      CongruentAdd(0, 0, x, a.value, w);
      CongruentMod(0 - x, w);
      Wrap128Is(-a.value, w);
      ArithRepr((0 - x) % Pow2(w), Wrap128(-a.value), t);
    case BitNot =>
      Complement(x, w);
      ReprCongruent(-1, w);
      CongruentAdd(-1, -1, x, a.value, w);
      CongruentBy(Pow2(w) - 1 - x, -1 - x, w, 1);
      NormalHeld(a.value, a.ty);
      ComplementHeld(a.value);
      ArithRepr(Bitwise(XorOp, x, Pow2(w) - 1, w), -a.value - 1, t);
    case _ =>
  }

  lemma ComplementHeld(v: int)
    requires Held(v)
    ensures Held(-v - 1)
  {
    hide Pow2;
    HalfOf(128);
  }

  lemma HalfOf(n: nat)
    requires n > 0
    ensures Pow2(n) == 2 * Pow2(n - 1)
  { }

  lemma ReprCongruent(x: int, w: nat)
    ensures Congruent(x, x, w)
  { }

  /** Exclusive or with all ones is the complement. */
  lemma {:induction false} Complement(x: int, w: nat)
    requires 0 <= x < Pow2(w)
    ensures Bitwise(XorOp, x, Pow2(w) - 1, w) == Pow2(w) - 1 - x
    decreases w
  {
    if w > 0 {
      Complement(x / 2, w - 1);
      assert (Pow2(w) - 1) % 2 == 1 && (Pow2(w) - 1) / 2 == Pow2(w - 1) - 1;
    }
  }

  lemma {:induction false} BelowPow2(n: nat)
    ensures n < Pow2(n)
  {
    if n > 0 { BelowPow2(n - 1); }
  }

  lemma ExecShiftAgrees(op: BinaryOp, x: int, a: CInt, y: int, b: CInt)
    requires (op.Shl? || op.Shr?) && TyOk(a.ty) && TyOk(b.ty) && Repr(x, a.value, a.ty) && Repr(y, b.value, b.ty)
    requires ExecBinary(op, x, a.ty, y, b.ty).Some?
    ensures FoldBinary(op, a, b).Some? && Repr(ExecBinary(op, x, a.ty, y, b.ty).value, FoldBinary(op, a, b).value.value, Promote(a.ty))
  {
    hide Pow2, Norm, InRange, Normal, TyOk, NormalizeBitInt, Convert, IntResize, MachineShift;
    var t, u := Promote(a.ty), Promote(b.ty);
    PromoteKeeps(a.value, a.ty);
    PromoteKeeps(b.value, b.ty);
    ConvertIs(x, a.value, a.ty, t);
    ConvertIs(y, b.value, b.ty, u);
    var w := StorageWidth(t);
    var n := b.value;
    CountIs(Convert(y, b.ty, u), n, u, w);
    ResizeIs(n, u, t);
    BelowPow2(w);
    DivModUnique(n, Pow2(w), 0, n);
    ShiftAgrees(op, a.value, n, t);
  }

  /** A stored count in range is the constant's own number. */
  lemma CountIs(bits: int, n: int, u: IntTy, w: nat)
    requires TyOk(u) && Repr(bits, n, u) && w <= 128
    requires 0 <= (if IsSigned(u) then SignedOf(bits, StorageWidth(u)) else bits) < w
    ensures 0 <= n < w
  {
    ReadBack(n, u);
    NormalHeld(n, u);
    if !IsSigned(u) {
      BelowPow2(127);
      NormUnique(n, bits, 128, true);
    }
  }

  lemma ExecBinaryAgrees(op: BinaryOp, x: int, a: CInt, y: int, b: CInt)
    requires TyOk(a.ty) && TyOk(b.ty) && Repr(x, a.value, a.ty) && Repr(y, b.value, b.ty)
    requires ExecBinary(op, x, a.ty, y, b.ty).Some?
    requires (op.LAnd? ==> x != 0) && (op.LOr? ==> x == 0)
    ensures FoldBinary(op, a, b).Some?
    ensures Repr(ExecBinary(op, x, a.ty, y, b.ty).value, FoldBinary(op, a, b).value.value, FoldBinary(op, a, b).value.ty)
  {
    hide Pow2, Norm, InRange, Normal, TyOk, NormalizeBitInt, Convert, MachineArith, FoldArith, MachineCompare, Repr, ReduceToType;
    FlagRepr(true);
    FlagRepr(false);
    if op.LAnd? || op.LOr? {
      ZeroIff(x, a.value, a.ty);
      ZeroIff(y, b.value, b.ty);
    } else if op.Shl? || op.Shr? {
      ExecShiftAgrees(op, x, a, y, b);
      FoldedType(op, a, b);
    } else {
      var t := UsualArith(a.ty, b.ty);
      TypesOk(a.ty, b.ty);
      ConvertIs(x, a.value, a.ty, t);
      ConvertIs(y, b.value, b.ty, t);
      var p, q := ReduceToType(a.value, t), ReduceToType(b.value, t);
      ReprParts(Convert(x, a.ty, t), p, t);
      ReprParts(Convert(y, b.ty, t), q, t);
      if IsCompare(op) { CompareAgrees(op, p, q, t); } else { ArithAgrees(op, p, q, t); }
    }
  }

  lemma ReprParts(bits: int, v: int, t: IntTy)
    requires Repr(bits, v, t)
    ensures Normal(v, t) && bits == v % Pow2(StorageWidth(t))
  { }

  /** Folding agrees with execution in every part of an expression if and only if
      each conditional that is computed folds to its own type. */
  lemma {:induction false} AgreesIffSettled(e: Expr)
    requires ExprOk(e)
    ensures AgreesThroughout(e) <==> Settled(e)
  {
    hide Repr, ReduceToType, FoldBinary, ExecBinary, UsualArith, Promote, FoldUnary, Convert, NormalizeBitInt, Normal, TyOk, CondSettled,
      Agrees, Exec, Eval;
    match e
    case IntLit(v, ty) => LiteralAgrees(v, ty);
    case Unary(op, arg) =>
      AgreesIffSettled(arg);
      if Settled(e) { UnaryCase(e); }
    case Binary(op, l, r) =>
      AgreesIffSettled(l);
      AgreesIffSettled(r);
      if Settled(e) { BinaryCase(e); }
    case Cond(c, yes, no) =>
      AgreesIffSettled(c);
      AgreesIffSettled(yes);
      AgreesIffSettled(no);
      if Exec(e).None? { Undefined(e); }
      else if AgreesThroughout(c) && AgreesThroughout(yes) && AgreesThroughout(no) { CondAgreesIff(e); }
    case Cast(ty, inner) =>
      AgreesIffSettled(inner);
      if Settled(e) { CastCase(e); }
  }

  lemma Undefined(e: Expr)
    requires Exec(e).None?
    ensures Agrees(e)
  { }

  /** Wherever the lowered form has a defined value, a settled expression folds to a
      constant of its static type, normalized, whose stored form is that value. */
  lemma FoldAgreesWithExec(e: Expr)
    requires ExprOk(e) && Settled(e)
    ensures Agrees(e)
  {
    hide Agrees, Settled;
    AgreesIffSettled(e);
  }

  /** No conditional in `e` has an arm that is not a constant. */
  ghost predicate ArmsFold(e: Expr) {
    match e
    case IntLit(_, _) => true
    case Unary(_, arg) => ArmsFold(arg)
    case Binary(_, l, r) => ArmsFold(l) && ArmsFold(r)
    case Cond(c, yes, no) => ArmsFold(c) && ArmsFold(yes) && ArmsFold(no) && Eval(yes).Some? && Eval(no).Some?
    case Cast(_, inner) => ArmsFold(inner)
  }

  /** Then a constant has the expression's static type, and all is settled. */
  lemma {:induction false} ArmsFoldSettles(e: Expr)
    requires ExprOk(e) && ArmsFold(e)
    ensures Settled(e) && (Eval(e).Some? ==> Eval(e).value.ty == TypeOf(e))
  {
    hide ReduceToType, FoldBinary, UsualArith, Promote, Exec;
    match e
    case IntLit(_, _) =>
    case Unary(_, arg) => ArmsFoldSettles(arg);
    case Binary(op, l, r) =>
      ArmsFoldSettles(l);
      ArmsFoldSettles(r);
      if Eval(l).Some? && Eval(r).Some? && FoldBinary(op, Eval(l).value, Eval(r).value).Some? {
        FoldedType(op, Eval(l).value, Eval(r).value);
      }
    case Cond(c, yes, no) =>
      ArmsFoldSettles(c);
      ArmsFoldSettles(yes);
      ArmsFoldSettles(no);
      TypeOfOk(yes);
      TypeOfOk(no);
      UsualArithSymmetric(TypeOf(yes), TypeOf(no));
    case Cast(_, inner) => ArmsFoldSettles(inner);
  }

  lemma LiteralAgrees(v: int, ty: IntTy)
    requires TyOk(ty) && Normal(v, ty)
    ensures Agrees(IntLit(v, ty))
  {
    ReduceNormal(v, ty);
  }

  lemma UnaryCase(e: Expr)
    requires e.Unary? && Agrees(e.arg) && ExprOk(e.arg)
    ensures Agrees(e)
  {
    hide Repr, ReduceToType, Promote, Convert, NormalizeBitInt, Normal, TyOk, Bitwise, Pow2, FoldUnary;
    TypeOfOk(e.arg);
    if Exec(e).Some? {
      if e.uop.LNot? { NotCase(e); } else { UnaryAgrees(e.uop, Exec(e.arg).value, Eval(e.arg).value); }
    }
  }

  lemma NotCase(e: Expr)
    requires e.Unary? && e.uop.LNot? && Agrees(e.arg) && TyOk(TypeOf(e.arg)) && Exec(e).Some?
    ensures Agrees(e)
  {
    hide Repr, ReduceToType, Promote, Normal, TyOk;
    var a := Eval(e.arg).value;
    ZeroIff(Exec(e.arg).value, a.value, a.ty);
    FlagRepr(a.value == 0);
  }

  lemma BinaryCase(e: Expr)
    requires e.Binary? && Agrees(e.left) && Agrees(e.right) && ExprOk(e.left) && ExprOk(e.right)
    ensures Agrees(e)
  {
    hide Repr, ReduceToType, Promote, UsualArith, FoldBinary, ExecBinary, Normal, TyOk;
    if Exec(e).None? { return; }
    TypeOfOk(e.left);
    TypeOfOk(e.right);
    var op := e.op;
    var x, a := Exec(e.left).value, Eval(e.left).value;
    ZeroIff(x, a.value, a.ty);
    if (op.LAnd? && x == 0) || (op.LOr? && x != 0) {
      FlagRepr(op.LOr?);
    } else {
      var y, b := Exec(e.right).value, Eval(e.right).value;
      ExecBinaryAgrees(op, x, a, y, b);
      FoldedType(op, a, b);
    }
  }

  lemma CastCase(e: Expr)
    requires e.Cast? && Agrees(e.inner) && ExprOk(e)
    ensures Agrees(e)
  {
    hide Repr, ReduceToType, Convert, Normal, TyOk;
    TypeOfOk(e.inner);
    if Exec(e).Some? { ConvertIs(Exec(e.inner).value, Eval(e.inner).value.value, TypeOf(e.inner), e.to); }
  }

  lemma ConvertSame(bits: int, v: int, t: IntTy)
    requires Repr(bits, v, t)
    ensures Convert(bits, t, t) == bits && ReduceToType(v, t) == v
  {
    ReduceNormal(v, t);
  }

  /** What a computed conditional folds to. */
  lemma CondFolds(e: Expr)
    requires e.Cond? && ExprOk(e) && Agrees(e.cond) && Agrees(e.yes) && Agrees(e.no) && Exec(e).Some?
    ensures Eval(e.cond).Some? && Eval(e).Some?
    ensures var x := Eval(e.cond).value;
            var taken, other := if x.value != 0 then e.yes else e.no, if x.value != 0 then e.no else e.yes;
            && Exec(taken).Some? && Eval(taken).Some? && Agrees(taken) && ExprOk(taken)
            && Exec(e).value == Convert(Exec(taken).value, TypeOf(taken), TypeOf(e))
            && (Eval(other).Some? ==>
                  Eval(e).value == NewCInt(Eval(taken).value.value, UsualArith(TypeOf(taken), Eval(other).value.ty)))
            && (Eval(other).None? ==> Eval(e) == Eval(taken))
  {
    hide Repr, ReduceToType, Convert, Normal, TyOk, UsualArith;
    TypeOfOk(e.cond);
    var x := Eval(e.cond).value;
    ZeroIff(Exec(e.cond).value, x.value, x.ty);
  }

  /** A conditional whose parts agree agrees itself exactly when it folds to its own
      type: when its arm not taken folds, or the taken one already has that type. */
  lemma CondAgreesIff(e: Expr)
    requires e.Cond? && ExprOk(e) && Agrees(e.cond) && Agrees(e.yes) && Agrees(e.no) && Exec(e).Some?
    ensures Agrees(e) <==> CondSettled(e)
  {
    hide Repr, ReduceToType, Convert, Normal, TyOk, UsualArith, Eval, Exec;
    CondFolds(e);
    var x := Eval(e.cond).value;
    var taken := if x.value != 0 then e.yes else e.no;
    TypeOfOk(e);
    TypeOfOk(taken);
    ConvertIs(Exec(taken).value, Eval(taken).value.value, TypeOf(taken), TypeOf(e));
    if TypeOf(taken) == TypeOf(e) { ConvertSame(Exec(taken).value, Eval(taken).value.value, TypeOf(e)); }
  }

  /** `1 ? -1 : 1u / 0u` folds to the `int` -1, but computes the `unsigned`
      4294967295. */
  lemma UnfoldableArm()
    ensures var e := Cond(IntLit(1, INT), IntLit(-1, INT), Binary(Div, IntLit(1, UINT), IntLit(0, UINT)));
            ExprOk(e) && TypeOf(e) == UINT && Exec(e) == Some(4294967295) && Eval(e) == Some(CInt(-1, INT))
  {
    hide Pow2, Norm, Normal;
    SmallLiterals();
    var no := Binary(Div, IntLit(1, UINT), IntLit(0, UINT));
    assert Eval(no).None?;
    assert Exec(IntLit(1, INT)) == Some(1) && Exec(IntLit(-1, INT)) == Some(4294967295);
    assert Convert(4294967295, INT, UINT) == 4294967295;
  }

  lemma SmallLiterals()
    ensures Normal(1, INT) && Normal(-1, INT) && Normal(1, UINT) && Normal(0, UINT)
    ensures ReduceToType(1, INT) == 1 && ReduceToType(-1, INT) == -1 && ReduceToType(1, UINT) == 1 && ReduceToType(0, UINT) == 0
    ensures -1 % Pow2(32) == 4294967295 && 1 % Pow2(32) == 1 && 0 % Pow2(32) == 0
  {
    Pow2Is32();
  }

  lemma Pow2Is32()
    ensures Pow2(32) == 4294967296
  {
    assert Pow2(4) == 16;
    Pow2Adds(4, 4);
    Pow2Adds(8, 8);
    Pow2Adds(16, 16);
  }
}
