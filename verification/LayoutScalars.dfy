/** What sizes and alignments are, said of the scalars a type is made of: where
    each of them lies, through arrays and nested records, and how wide it is. */
module LayoutScalars {
  import opened Wrappers
  import opened Bits
  import opened BitField
  import opened Layout
  import opened LayoutLaws
  import opened LayoutLeast

  // ------------------------------------------------------------- the scalars

  /** The width of a scalar. */
  function ScalarBits(ty: CType): nat {
    match ty
    case Qual(inner) => ScalarBits(inner)
    case Void | Bool | Func => 8
    case Int(width, _) => width
    case Float(kind) =>
      (match kind case F32 => 32 case F64 => 64 case F128 => 128 case C32 => 2 * 32 case C64 => 2 * 64 case C128 => 2 * 128)
    case Pointer => 64
    case _ => 0
  }

  /** What a scalar's address is a multiple of, in bits: its width, and a complex
      number's half of that. */
  function ScalarAlign(ty: CType): nat {
    match ty
    case Qual(inner) => ScalarAlign(inner)
    case Float(kind) => if kind.C32? || kind.C64? || kind.C128? then ScalarBits(ty) / 2 else ScalarBits(ty)
    case _ => ScalarBits(ty)
  }

  predicate Scalar(ty: CType) {
    match ty
    case Qual(inner) => Scalar(inner)
    case Array(_, _) => false
    case Record(_) => false
    case Vector(_, _) => false
    case _ => true
  }

  /** Vectors are of integers or floating numbers, and no record is packed. */
  ghost predicate Unpacked(ty: CType)
    decreases ty
  {
    match ty
    case Qual(inner) => Unpacked(inner)
    case Array(elem, _) => Unpacked(elem)
    case Record(def) => UnpackedDef(def)
    case Vector(lane, _) => lane.Int? || lane.Float?
    case _ => true
  }

  ghost predicate UnpackedDef(def: RecordDef)
    decreases def
  {
    !def.packed && forall i :: 0 <= i < |def.fields| ==> Unpacked(def.fields[i].ty)
  }

  /** The way to a place inside a type: which element, lane or member, and so on
      inside that. */
  datatype Path = Here | In(k: nat, rest: Path)

  /** A place is a scalar, a bit-field, the mark left by a `:0`, or the byte of a
      record with nothing in it. */
  predicate IsPlace(ty: CType, path: Path)
    decreases ty
  {
    match ty
    case Qual(inner) => IsPlace(inner, path)
    case Array(elem, n) => path.In? && path.k < n && IsPlace(elem, path.rest)
    case Vector(_, n) => path.In? && path.k < n && path.rest.Here?
    case Record(def) =>
      if path.Here? then Last(def, |def.fields|) == 0
      else path.k < |def.fields| &&
           if def.fields[path.k].bitWidth.Some? then path.rest.Here? else IsPlace(def.fields[path.k].ty, path.rest)
    case _ => path.Here?
  }

  /** The first bit of a member, as laid out. */
  function MemberBit(def: RecordDef, k: nat): nat
    requires k < |def.fields|
    decreases def, k, 0
  {
    var l := RecordLayout(def);
    8 * l.offsets[k] + (if l.bits[k].Some? then l.bits[k].value.bitOffset else 0)
  }

  /** The bits from one element of an array to the next. */
  function Slot(ty: CType): nat
    decreases ty, 2
  {
    RoundUp(LastBit(ty), 8 * AlignOf(ty))
  }

  /** The first bit past the last place in a type. */
  function LastBit(ty: CType): nat
    decreases ty, 1
  {
    match ty
    case Qual(inner) => LastBit(inner)
    case Array(elem, n) => if n == 0 || LastBit(elem) == 0 then 0 else Steps(n - 1, Slot(elem)) + LastBit(elem)
    case Vector(lane, n) => Steps(n, ScalarBits(lane))
    case Record(def) => if Last(def, |def.fields|) == 0 then 8 else Last(def, |def.fields|)
    case _ => ScalarBits(ty)
  }

  /** The first bit past all places in the first `n` members. */
  function Last(def: RecordDef, n: nat): nat
    requires n <= |def.fields|
    decreases def, n, 0
  {
    if n == 0 then 0 else Max(Last(def, n - 1), MemberLast(def, n - 1))
  }

  /** A `:0` closes the unit that the members before it end in; a union holds all of
      its type. */
  function MemberLast(def: RecordDef, k: nat): nat
    requires k < |def.fields|
    decreases def, k, 2
  {
    var f := def.fields[k];
    match f.bitWidth
    case Some(w) =>
      if w == 0 then MarkBit(def, k) + (if def.isUnion then LastBit(f.ty) else 0)
      else MemberBit(def, k) + w
    case None => if LastBit(f.ty) == 0 then 0 else MemberBit(def, k) + LastBit(f.ty)
  }

  /** Where a place begins, in bits from the beginning of the object. */
  function First(ty: CType, path: Path): nat
    requires IsPlace(ty, path)
    decreases ty
  {
    match ty
    case Qual(inner) => First(inner, path)
    case Array(elem, _) => Steps(path.k, Slot(elem)) + First(elem, path.rest)
    case Vector(lane, _) => Steps(path.k, ScalarBits(lane))
    case Record(def) =>
      if path.Here? then 0
      else if def.fields[path.k].bitWidth.None? then MemberBit(def, path.k) + First(def.fields[path.k].ty, path.rest)
      else if def.fields[path.k].bitWidth.value == 0 then MarkBit(def, path.k)
      else MemberBit(def, path.k)
    case _ => 0
  }

  function Steps(k: nat, size: nat): nat {
    k * size
  }

  /** Where a `:0` leaves its mark. */
  function MarkBit(def: RecordDef, k: nat): nat
    requires k < |def.fields|
    decreases def, k, 1
  {
    if def.isUnion then 0 else RoundUp(Last(def, k), ScalarBits(def.fields[k].ty))
  }

  /** How many bits it takes. */
  function Width(ty: CType, path: Path): nat
    requires IsPlace(ty, path)
    decreases ty
  {
    match ty
    case Qual(inner) => Width(inner, path)
    case Array(elem, _) => Width(elem, path.rest)
    case Vector(lane, _) => ScalarBits(lane)
    case Record(def) =>
      if path.Here? then 8
      else
        var f := def.fields[path.k];
        (match f.bitWidth
         case Some(w) => if w == 0 && def.isUnion then LastBit(f.ty) else w
         case None => Width(f.ty, path.rest))
    case _ => ScalarBits(ty)
  }

  // -------------------------------------------------------- rounding the same

  /** Rounded up to multiples of `m`, `x` and `y` come out the same. */
  ghost predicate Same(x: nat, y: nat, m: nat) {
    RoundUp(x, m) == RoundUp(y, m)
  }

  /** Rounding up gives the least multiple. */
  lemma LeastMultiple(x: nat, m: nat, z: nat)
    requires m >= 1 && x <= z && z % m == 0
    ensures RoundUp(x, m) <= z
  {
    hide RoundUp;
    RoundUpIs(x, m);
    var r := RoundUp(x, m);
    var i, j := r / m, z / m;
    assert r == m * i && z == m * j;
    if i > j { Multiples(m, i - j); Apart(m, i, j); }
  }

  lemma Apart(m: nat, i: nat, j: nat)
    ensures m * (i - j) == m * i - m * j
  { }

  lemma RoundTwice(x: nat, m: nat, k: nat)
    requires m >= 1 && k >= 1 && k % m == 0
    ensures RoundUp(RoundUp(x, m), k) == RoundUp(x, k)
  {
    hide RoundUp;
    RoundUpIs(x, m);
    RoundUpIs(x, k);
    RoundUpIs(RoundUp(x, m), k);
    DividesTrans(m, k, RoundUp(x, k));
    LeastMultiple(x, m, RoundUp(x, k));
    LeastMultiple(RoundUp(x, m), k, RoundUp(x, k));
    LeastMultiple(x, k, RoundUp(RoundUp(x, m), k));
  }

  lemma SameUp(x: nat, y: nat, m: nat, k: nat)
    requires Same(x, y, m) && m >= 1 && k >= 1 && k % m == 0
    ensures Same(x, y, k)
  {
    hide RoundUp;
    RoundTwice(x, m, k);
    RoundTwice(y, m, k);
  }

  lemma RoundShift(x: nat, s: nat, m: nat)
    requires m >= 1 && s % m == 0
    ensures RoundUp(s + x, m) == s + RoundUp(x, m)
  {
    hide RoundUp;
    RoundUpIs(x, m);
    RoundUpIs(s + x, m);
    DividesSum(m, s, RoundUp(x, m));
    LeastMultiple(s + x, m, s + RoundUp(x, m));
    DividesDifference(m, s, RoundUp(s + x, m));
    LeastMultiple(x, m, RoundUp(s + x, m) - s);
  }

  lemma DividesDifference(m: nat, s: nat, z: nat)
    requires m >= 1 && s % m == 0 && z % m == 0 && s <= z
    ensures (z - s) % m == 0
  {
    var i, j := s / m, z / m;
    assert s == m * i && z == m * j;
    Apart(m, j, i);
    DivModUnique(z - s, m, j - i, 0);
  }

  lemma SameShift(x: nat, y: nat, s: nat, m: nat)
    requires Same(x, y, m) && m >= 1 && s % m == 0
    ensures Same(s + x, s + y, m)
  {
    hide RoundUp;
    RoundShift(x, s, m);
    RoundShift(y, s, m);
  }

  lemma SameMax(x: nat, y: nat, x': nat, y': nat, m: nat)
    requires Same(x, y, m) && Same(x', y', m) && m >= 1
    ensures Same(Max(x, x'), Max(y, y'), m)
  {
    hide RoundUp;
    RoundMax(x, x', m);
    RoundMax(y, y', m);
  }

  lemma RoundMax(x: nat, y: nat, m: nat)
    requires m >= 1
    ensures RoundUp(Max(x, y), m) == Max(RoundUp(x, m), RoundUp(y, m))
  {
    hide RoundUp;
    RoundUpIs(x, m);
    RoundUpIs(y, m);
    if x <= y { LeastMultiple(x, m, RoundUp(y, m)); } else { LeastMultiple(y, m, RoundUp(x, m)); }
  }

  /** Closing a unit of `u` bits keeps the sameness, whichever of the two powers of
      two is the larger. */
  lemma SameClosed(x: nat, y: nat, u: nat, m: nat)
    requires Same(x, y, m) && IsPow2(u) && IsPow2(m) && u >= 1 && m >= 1
    ensures Same(RoundUp(x, u), RoundUp(y, u), m)
  {
    hide RoundUp, IsPow2;
    if u <= m {
      Pow2Divides(u, m);
      RoundTwice(x, u, m);
      RoundTwice(y, u, m);
    } else {
      Pow2Divides(m, u);
      RoundTwice(x, m, u);
      RoundTwice(y, m, u);
    }
  }

  lemma RoundScales(x: nat, a: nat)
    requires a >= 1
    ensures RoundUp(8 * x, 8 * a) == 8 * RoundUp(x, a)
  {
    hide RoundUp;
    RoundUpIs(x, a);
    RoundUpIs(8 * x, 8 * a);
    var r := RoundUp(x, a);
    var z := RoundUp(8 * x, 8 * a);
    var k, j := r / a, z / (8 * a);
    assert r == a * k && z == (8 * a) * j;
    Grouped(a, k);
    Grouped(a, j);
    DivModUnique(8 * r, 8 * a, k, 0);
    LeastMultiple(8 * x, 8 * a, 8 * r);
    DivModUnique(a * j, a, j, 0);
    LeastMultiple(x, a, a * j);
  }

  lemma Grouped(a: nat, k: nat)
    ensures (8 * a) * k == 8 * (a * k)
  { }

  lemma EightFold(a: nat)
    requires IsPow2(a)
    ensures IsPow2(8 * a) && a >= 1
  {
    var k: nat :| a == Pow2(k);
    Pow2Adds(k, 3);
    assert Pow2(3) == 8;
  }

  lemma EightDivides(a: nat, b: nat)
    requires a >= 1 && b % a == 0
    ensures (8 * b) % (8 * a) == 0
  {
    var k := b / a;
    assert b == a * k;
    Grouped(a, k);
    DivModUnique(8 * b, 8 * a, k, 0);
  }

  // -------------------------------------------------------------- what a size is

  lemma {:induction false} ScalarSize(ty: CType)
    requires Scalar(ty)
    ensures 8 * SizeOf(ty) == ScalarBits(ty) == LastBit(ty) && 8 * AlignOf(ty) == ScalarAlign(ty)
    ensures ScalarBits(ty) >= 8 && ScalarAlign(ty) >= 8 && ScalarBits(ty) % ScalarAlign(ty) == 0
    decreases ty
  {
    if ty.Qual? { ScalarSize(ty.inner); }
  }

  lemma RoundZero(x: nat, m: nat)
    requires m >= 1 && Same(x, 0, m)
    ensures x == 0
  {
    hide RoundUp;
    RoundUpIs(x, m);
    RoundUpIs(0, m);
  }

  lemma WholeSteps(k: nat, m: nat)
    requires m >= 1
    ensures Steps(k, m) % m == 0
  {
    DivModUnique(k * m, m, k, 0);
  }

  lemma StepsMultiple(k: nat, m: nat, a: nat)
    requires a >= 1 && m % a == 0
    ensures Steps(k, m) % a == 0
  {
    var j := m / a;
    assert m == a * j;
    assert k * m == a * (k * j);
    DivModUnique(k * m, a, k * j, 0);
  }

  lemma OneStepMore(n: nat, m: nat)
    requires n >= 1
    ensures Steps(n - 1, m) + m == Steps(n, m)
  { }

  lemma StepsGrow(k: nat, n: nat, m: nat)
    requires k <= n
    ensures Steps(k, m) <= Steps(n, m)
  {
    if k < n {
      OneStepMore(n, m);
      StepsGrow(k, n - 1, m);
    }
  }

  lemma ArraySize(elem: CType, n: nat)
    requires Fills(elem)
    ensures 8 * SizeOf(Array(elem, n)) == Steps(n, Slot(elem)) == RoundUp(LastBit(Array(elem, n)), 8 * AlignOf(elem))
  {
    hide RoundUp, AlignOf, SizeOf, LastBit, Steps;
    var a, size, last := AlignOf(elem), SizeOf(elem), LastBit(elem);
    RoundScales(size, a);
    EightTimes(RoundUp(size, a), n);
    assert SizeOf(Array(elem, n)) == RoundUp(size, a) * n by { ArrayIs(elem, n); }
    ArrayIs(elem, n);
    RoundUpIs(last, 8 * a);
    RoundUpIs(0, 8 * a);
    NoSteps(n, Slot(elem));
    if n > 0 && last > 0 {
      OneStepMore(n, Slot(elem));
      StepsMultiple(n - 1, Slot(elem), 8 * a);
      RoundShift(last, Steps(n - 1, Slot(elem)), 8 * a);
    }
  }

  lemma ArrayIs(elem: CType, n: nat)
    ensures SizeOf(Array(elem, n)) == RoundUp(SizeOf(elem), AlignOf(elem)) * n
    ensures LastBit(Array(elem, n)) == if n == 0 || LastBit(elem) == 0 then 0 else Steps(n - 1, Slot(elem)) + LastBit(elem)
  { }

  lemma NoSteps(n: nat, m: nat)
    ensures n == 0 || m == 0 ==> Steps(n, m) == 0
  { }

  lemma EightTimes(r: nat, n: nat)
    ensures 8 * (r * n) == Steps(n, 8 * r)
  { }

  lemma VectorSize(lane: CType, n: nat)
    requires lane.Int? || lane.Float?
    ensures 8 * SizeOf(Vector(lane, n)) == Steps(n, ScalarBits(lane)) == LastBit(Vector(lane, n))
  {
    ScalarSize(lane);
    EightTimes(SizeOf(lane), n);
  }

  ghost predicate Fills(ty: CType) {
    AlignOf(ty) >= 1 && LastBit(ty) <= 8 * SizeOf(ty) && Same(8 * SizeOf(ty), LastBit(ty), 8 * AlignOf(ty))
  }

  /** A type takes the room up to its last place, but for what its alignment adds. */
  lemma {:induction false} SizeSame(ty: CType)
    requires TypeOk(ty) && Unpacked(ty)
    ensures Fills(ty)
    decreases ty, 2
  {
    hide RoundUp, AlignOf, SizeOf, LastBit, Steps;
    AlignIsPow2(ty);
    if Scalar(ty) { ScalarSize(ty); }
    else if ty.Qual? {
      SizeSame(ty.inner);
      QualIs(ty.inner);
    } else if ty.Array? {
      SizeSame(ty.elem);
      ArraySize(ty.elem, ty.count);
      RoundUpIs(LastBit(ty), 8 * AlignOf(ty));
      ArrayAligns(ty.elem, ty.count);
      RoundTwice(LastBit(ty), 8 * AlignOf(ty), 8 * AlignOf(ty));
    } else if ty.Vector? {
      VectorSize(ty.lane, ty.lanes);
    } else {
      RecordSame(ty.def);
    }
  }

  lemma QualIs(inner: CType)
    ensures AlignOf(Qual(inner)) == AlignOf(inner) && SizeOf(Qual(inner)) == SizeOf(inner) && LastBit(Qual(inner)) == LastBit(inner)
  { }

  lemma ArrayAligns(elem: CType, n: nat)
    ensures AlignOf(Array(elem, n)) == AlignOf(elem)
  { }

  // ------------------------------------------------------------------- records

  /** Members keep the places they were given. */
  lemma {:induction false} PlacesKept(def: RecordDef, n: nat, i: nat)
    requires i < n <= |def.fields|
    ensures Placed(def, n).offsets[i] == Placed(def, i + 1).offsets[i] && Placed(def, n).bits[i] == Placed(def, i + 1).bits[i]
    decreases n
  {
    hide AlignOf, SizeOf, FieldAlign, RoundUp, UnitBits;
    if i < n - 1 { PlacesKept(def, n - 1, i); }
  }

  lemma LaidAsPlaced(def: RecordDef, i: nat)
    requires i < |def.fields|
    ensures var p := Placed(def, i + 1);
            MemberBit(def, i) == 8 * p.offsets[i] + (if p.bits[i].Some? then p.bits[i].value.bitOffset else 0)
  {
    hide Placed;
    PlacesKept(def, |def.fields|, i);
  }

  /** The running offset `at`, and the last place so far. */
  ghost predicate Follows(at: nat, last: nat, align: nat) {
    IsPow2(align) && align >= 1 && last <= at && Same(at, last, 8 * align)
  }

  lemma {:induction false} StructFollows(def: RecordDef, n: nat)
    requires DefOk(def) && UnpackedDef(def) && !def.isUnion && n <= |def.fields|
    ensures Follows(Placed(def, n).offsetBits, Last(def, n), Placed(def, n).align)
    decreases def, n
  {
    hide RoundUp, AlignOf, SizeOf, LastBit, Follows, PlaceField, MemberLast, DefOk;
    if n == 0 {
      FollowsZero();
    } else {
      var f, p := def.fields[n - 1], Placed(def, n - 1);
      FieldIsOk(def, n - 1);
      StructFollows(def, n - 1);
      LaidAsPlaced(def, n - 1);
      if f.bitWidth.None? {
        SizeSame(f.ty);
        OrdinaryFollows(def, n - 1);
      } else if f.bitWidth.value == 0 { MarkFollows(def, n - 1); }
      else { BitsFollow(def, n - 1); }
    }
  }

  lemma FollowsZero()
    ensures Follows(0, 0, 1)
  {
    SmallPow2();
  }

  lemma OrdinaryFollows(def: RecordDef, i: nat)
    requires i < |def.fields| && !def.isUnion && !def.packed
    requires var f := def.fields[i]; FieldOk(f) && f.bitWidth.None? && Fills(f.ty)
    requires var p := Placed(def, i); Follows(p.offsetBits, Last(def, i), p.align)
    ensures var p := Placed(def, i + 1); Follows(p.offsetBits, Last(def, i + 1), p.align)
  {
    hide RoundUp, AlignOf, SizeOf, LastBit, FieldAlign, Same, IsPow2;
    var f, p, p1 := def.fields[i], Placed(def, i), Placed(def, i + 1);
    var a := FieldAlign(f, false);
    var at := RoundUp(p.offsetBits, a * 8);
    MemberPlaced(f, p);
    NaturalDivides(f);
    LaidAsPlaced(def, i);
    assert p1.offsetBits == at + 8 * SizeOf(f.ty) && p1.align == Max(p.align, a);
    assert MemberBit(def, i) == at;
    RoundUpIs(p.offsetBits, a * 8);
    MemberFollows(p.offsetBits, Last(def, i), p.align, a, AlignOf(f.ty), at, 8 * SizeOf(f.ty), LastBit(f.ty));
  }

  /** A member of `size` bits whose last place ends at `last`, aligned to `a`. */
  lemma MemberFollows(from: nat, before: nat, align: nat, a: nat, b: nat, at: nat, size: nat, last: nat)
    requires Follows(from, before, align) && a >= 1 && b >= 1 && a % b == 0
    requires IsPow2(Max(align, a)) && Max(align, a) % align == 0 && Max(align, a) % a == 0
    requires from <= at && at == RoundUp(from, a * 8) && Same(size, last, 8 * b) && last <= size
    ensures Follows(at + size, Max(before, if last == 0 then 0 else at + last), Max(align, a))
  {
    hide RoundUp, Same, IsPow2;
    var m := Max(align, a);
    EightDivides(align, m);
    EightDivides(a, m);
    EightDivides(b, a);
    SameUp(from, before, 8 * align, 8 * m);
    if last == 0 {
      RoundZero(size, 8 * b);
      RoundTwiceSame(from, 8 * a, 8 * m);
      SameTrans(at, from, before, 8 * m);
    } else {
      RoundUpIs(from, a * 8);
      DividesTrans(8 * b, 8 * a, at);
      SameShift(size, last, at, 8 * b);
      DividesTrans(8 * b, 8 * a, 8 * m);
      SameUp(at + size, at + last, 8 * b, 8 * m);
    }
  }

  lemma RoundTwiceSame(x: nat, m: nat, k: nat)
    requires m >= 1 && k >= 1 && k % m == 0
    ensures Same(RoundUp(x, m), x, k)
  {
    hide RoundUp;
    RoundTwice(x, m, k);
  }

  lemma SameTrans(x: nat, y: nat, z: nat, m: nat)
    requires Same(x, y, m) && Same(y, z, m)
    ensures Same(x, z, m) && Same(y, x, m)
  { }


  lemma MarkFollows(def: RecordDef, i: nat)
    requires i < |def.fields| && !def.isUnion && !def.packed
    requires var f := def.fields[i]; FieldOk(f) && f.bitWidth == Some(0)
    requires var p := Placed(def, i); Follows(p.offsetBits, Last(def, i), p.align)
    ensures var p := Placed(def, i + 1); Follows(p.offsetBits, Last(def, i + 1), p.align)
  {
    hide RoundUp, AlignOf, SizeOf, LastBit, FieldAlign, Same, IsPow2, UnitBits, ScalarBits;
    var f, p, p1 := def.fields[i], Placed(def, i), Placed(def, i + 1);
    DeclaredUnit(f);
    var unit := UnitBits(f.ty);
    assert p1 == PlaceField(f, false, p);
    assert MemberLast(def, i) == RoundUp(Last(def, i), unit);
    EightFold(p.align);
    SameClosed(p.offsetBits, Last(def, i), unit, 8 * p.align);
    RoundMonotone(Last(def, i), p.offsetBits, unit);
    RoundUpIs(Last(def, i), unit);
  }

  lemma BitsFollow(def: RecordDef, i: nat)
    requires i < |def.fields| && !def.isUnion && !def.packed
    requires var f := def.fields[i]; FieldOk(f) && f.bitWidth.Some? && f.bitWidth.value > 0
    requires var p := Placed(def, i); Follows(p.offsetBits, Last(def, i), p.align)
    ensures var p := Placed(def, i + 1); Follows(p.offsetBits, Last(def, i + 1), p.align)
  {
    hide RoundUp, AlignOf, SizeOf, LastBit, FieldAlign, Same, IsPow2, UnitBits, ScalarBits, FieldStart;
    var f, p, p1 := def.fields[i], Placed(def, i), Placed(def, i + 1);
    var at := BitFieldPlace(def, i);
    SameItself(p1.offsetBits, 8 * p1.align);
  }

  lemma BitFieldPlace(def: RecordDef, i: nat) returns (at: nat)
    requires i < |def.fields| && !def.isUnion && !def.packed
    requires var f := def.fields[i]; FieldOk(f) && f.bitWidth.Some? && f.bitWidth.value > 0
    requires IsPow2(Placed(def, i).align)
    ensures var p, p1, w := Placed(def, i), Placed(def, i + 1), def.fields[i].bitWidth.value;
            && p.offsetBits <= at && p1.offsetBits == at + w && MemberBit(def, i) == at && IsPow2(p1.align) && p1.align >= 1
  {
    hide RoundUp, AlignOf, SizeOf, LastBit, FieldAlign, Same, IsPow2, UnitBits, ScalarBits, FieldStart;
    var f, p, p1 := def.fields[i], Placed(def, i), Placed(def, i + 1);
    BitFieldPlaced(f, p);
    LaidAsPlaced(def, i);
    assert p1 == PlaceField(f, false, p);
    at := FieldStart(p, UnitBits(f.ty), f.bitWidth.value, false);
    Pow2Positive(p1.align);
  }

  lemma SameItself(x: nat, m: nat)
    ensures Same(x, x, m)
  { }

  lemma RoundMonotone(x: nat, y: nat, m: nat)
    requires x <= y && m >= 1
    ensures RoundUp(x, m) <= RoundUp(y, m)
  {
    hide RoundUp;
    RoundUpIs(y, m);
    LeastMultiple(x, m, RoundUp(y, m));
  }

  /** The unit of a bit-field is its declared type. */
  lemma DeclaredUnit(f: Field)
    requires FieldOk(f) && f.bitWidth.Some?
    ensures UnitBits(f.ty) == ScalarBits(f.ty) == ScalarAlign(f.ty) == 8 * SizeOf(f.ty) == 8 * AlignOf(f.ty) == LastBit(f.ty)
    ensures IsPow2(UnitBits(f.ty)) && f.bitWidth.value <= UnitBits(f.ty)
  {
    UnitOf(f.ty);
  }

  lemma {:induction false} UnitOf(ty: CType)
    requires var t := Unqualified(ty); t.Bool? || (t.Int? && t.width <= 64)
    ensures UnitBits(ty) == ScalarBits(ty) == ScalarAlign(ty) == 8 * SizeOf(ty) == 8 * AlignOf(ty) == LastBit(ty)
    ensures IsPow2(UnitBits(ty)) && Scalar(ty)
    decreases ty
  {
    if ty.Qual? { UnitOf(ty.inner); }
    else {
      SmallPow2();
      assert Pow2(3) == 8;
      assert Pow2(5) == 2 * (2 * Pow2(3));
      assert Pow2(6) == 2 * Pow2(5);
    }
  }

  // --------------------------------------------------------------------- unions

  lemma {:induction false} UnionFollows(def: RecordDef, n: nat)
    requires DefOk(def) && UnpackedDef(def) && def.isUnion && n <= |def.fields|
    ensures Follows(8 * Placed(def, n).offsetBits, Last(def, n), Placed(def, n).align)
    decreases def, n
  {
    hide RoundUp, AlignOf, SizeOf, LastBit, Follows, OverlayField, MemberLast, DefOk;
    if n == 0 {
      FollowsZero();
    } else {
      var f := def.fields[n - 1];
      FieldIsOk(def, n - 1);
      UnionFollows(def, n - 1);
      LaidAsPlaced(def, n - 1);
      UnionOverlays(def, n, n - 1);
      SizeSame(f.ty);
      OverlayFollows(def, n - 1);
    }
  }

  lemma OverlayFollows(def: RecordDef, i: nat)
    requires i < |def.fields| && def.isUnion && !def.packed && FieldOk(def.fields[i]) && Fills(def.fields[i].ty)
    requires var p := Placed(def, i); Follows(8 * p.offsetBits, Last(def, i), p.align)
    requires MemberBit(def, i) == 0
    ensures var p := Placed(def, i + 1); Follows(8 * p.offsetBits, Last(def, i + 1), p.align)
  {
    hide RoundUp, AlignOf, SizeOf, LastBit, FieldAlign, Same, IsPow2, UnitBits, OverlayOk;
    var f, p, p1 := def.fields[i], Placed(def, i), Placed(def, i + 1);
    var s, last := SizeOf(f.ty), MemberLast(def, i);
    assert p1 == OverlayField(f, false, p);
    assert p1.offsetBits == Max(p.offsetBits, s);
    OverlayPlaced(f, p);
    PowersUp(f, p);
    assert Same(8 * s, last, 8 * p1.align) && last <= 8 * s by { OneOverlaid(def, i); }
    EightDivides(p.align, p1.align);
    SameUp(8 * p.offsetBits, Last(def, i), 8 * p.align, 8 * p1.align);
    SameMax(8 * p.offsetBits, Last(def, i), 8 * s, last, 8 * p1.align);
    assert Max(8 * p.offsetBits, 8 * s) == 8 * p1.offsetBits;
  }

  lemma PowersUp(f: Field, p: Progress)
    requires FieldOk(f) && IsPow2(p.align)
    ensures IsPow2(OverlayField(f, false, p).align) && OverlayField(f, false, p).align >= 1
  {
    hide IsPow2, AlignOf, SizeOf, FieldAlign;
    AlignIsPow2(f.ty);
    FieldAlignIsPow2(f, false);
    MaxDivides(p.align, AlignOf(f.ty));
    MaxDivides(p.align, FieldAlign(f, false));
    MaxDivides(p.align, p.align);
  }

  lemma OneOverlaid(def: RecordDef, i: nat)
    requires i < |def.fields| && def.isUnion && !def.packed && FieldOk(def.fields[i]) && Fills(def.fields[i].ty)
    requires MemberBit(def, i) == 0 && IsPow2(Placed(def, i).align)
    ensures var m := 8 * Placed(def, i + 1).align; var s := 8 * SizeOf(def.fields[i].ty);
            Same(s, MemberLast(def, i), m) && MemberLast(def, i) <= s
  {
    hide RoundUp, AlignOf, SizeOf, LastBit, FieldAlign, Same, IsPow2, UnitBits;
    var f, p, p1 := def.fields[i], Placed(def, i), Placed(def, i + 1);
    var s, b, m := 8 * SizeOf(f.ty), 8 * AlignOf(f.ty), 8 * p1.align;
    OverlayPlaced(f, p);
    PowersUp(f, p);
    if f.bitWidth.None? {
      NaturalDivides(f);
      MemberAligned(f, p);
      EightDivides(AlignOf(f.ty), p1.align);
      if LastBit(f.ty) == 0 { RoundZero(s, b); }
      SameUp(s, LastBit(f.ty), b, m);
    } else {
      DeclaredUnit(f);
      if f.bitWidth.value == 0 { SameItself(s, m); }
      else {
        EightDivides(AlignOf(f.ty), p1.align);
        WithinUnit(s, f.bitWidth.value, b);
        SameUp(s, f.bitWidth.value, b, m);
      }
    }
  }

  lemma MemberAligned(f: Field, p: Progress)
    requires FieldOk(f) && IsPow2(p.align) && f.bitWidth.None?
    ensures AlignOf(f.ty) >= 1 && OverlayField(f, false, p).align % AlignOf(f.ty) == 0
  {
    OverlayPlaced(f, p);
  }

  lemma WithinUnit(unit: nat, w: nat, m: nat)
    requires 0 < w <= unit == m
    ensures Same(unit, w, m)
  {
    hide RoundUp;
    RoundUpIs(w, m);
    RoundUpIs(unit, m);
    DivModUnique(m, m, 1, 0);
    LeastMultiple(w, m, m);
    LeastMultiple(unit, m, m);
  }

  lemma RecordSame(def: RecordDef)
    requires DefOk(def) && UnpackedDef(def)
    ensures Fills(Record(def)) && (Last(def, |def.fields|) > 0 ==> SizeOf(Record(def)) % AlignOf(Record(def)) == 0)
    decreases def, |def.fields| + 1
  {
    hide RoundUp, Last, Placed, Follows, IsPow2, DefOk;
    var n := |def.fields|;
    var p := Placed(def, n);
    var bits := if def.isUnion then 8 * p.offsetBits else p.offsetBits;
    if def.isUnion { UnionFollows(def, n); } else { StructFollows(def, n); }
    RecordFollows(def, bits);
  }

  lemma RecordFollows(def: RecordDef, bits: nat)
    requires DefOk(def) && bits == (if def.isUnion then 8 else 1) * Placed(def, |def.fields|).offsetBits
    requires Follows(bits, Last(def, |def.fields|), Placed(def, |def.fields|).align)
    ensures Fills(Record(def)) && (Last(def, |def.fields|) > 0 ==> SizeOf(Record(def)) % AlignOf(Record(def)) == 0)
  {
    hide RoundUp, Last, Placed, IsPow2, DefOk, Same;
    var n := |def.fields|;
    var p, l, last := Placed(def, n), RecordLayout(def), Last(def, n);
    var m := 8 * l.align;
    RecordAlign(def);
    assert def.align.Some? ==> IsPow2(def.align.value) by { DefAlign(def); }
    AlignRaised(p.align, def.align);
    EightDivides(p.align, l.align);
    SameUp(bits, last, 8 * p.align, m);
    RoundUpIs(bits, m);
    RoundUpIs(last, m);
    BytesOf(RoundUp(bits, m), l.align);
    if def.isUnion { RoundScales(p.offsetBits, l.align); }
    RecordIs(def);
    if last == 0 {
      RoundZero(bits, m);
      SameItself(8, m);
    } else {
      SizeOfRecord(def, bits, last);
    }
  }

  lemma RecordIs(def: RecordDef)
    ensures SizeOf(Record(def)) == RecordLayout(def).size && AlignOf(Record(def)) == RecordLayout(def).align
    ensures LastBit(Record(def)) == if Last(def, |def.fields|) == 0 then 8 else Last(def, |def.fields|)
  { }

  lemma SizeOfRecord(def: RecordDef, bits: nat, last: nat)
    requires bits == (if def.isUnion then 8 else 1) * Placed(def, |def.fields|).offsetBits && last > 0 && last <= bits
    requires var m := 8 * RecordLayout(def).align; m >= 8 && Same(bits, last, m)
    ensures var l := RecordLayout(def); Same(8 * l.size, last, 8 * l.align) && last <= 8 * l.size && l.size % l.align == 0
  {
    hide RoundUp, Last, Placed;
    var l, p := RecordLayout(def), Placed(def, |def.fields|);
    var m := 8 * l.align;
    RoundUpIs(bits, m);
    RoundUpIs(last, m);
    BytesOf(RoundUp(bits, m), l.align);
    if def.isUnion {
      RoundScales(p.offsetBits, l.align);
      RoundUpIs(p.offsetBits, l.align);
    }
    assert 8 * l.size == RoundUp(bits, m);
    RoundTwice(last, m, m) by { DivModUnique(m, m, 1, 0); }
  }

  lemma DefAlign(def: RecordDef)
    requires DefOk(def)
    ensures def.align.Some? ==> IsPow2(def.align.value)
  { }

  // ------------------------------------------------------- places inside the type

  lemma {:induction false} LastHolds(def: RecordDef, k: nat, n: nat)
    requires k < n <= |def.fields|
    ensures MemberLast(def, k) <= Last(def, n)
    decreases n
  {
    hide MemberLast;
    if k < n - 1 { LastHolds(def, k, n - 1); }
  }

  lemma AtMember(def: RecordDef, path: Path)
    requires IsPlace(Record(def), path) && path.In?
    ensures path.k < |def.fields|
    ensures var f := def.fields[path.k]; var w := Width(Record(def), path);
            match f.bitWidth
            case None =>
              && IsPlace(f.ty, path.rest) && First(Record(def), path) == MemberBit(def, path.k) + First(f.ty, path.rest)
              && w == Width(f.ty, path.rest)
            case Some(width) =>
              path.rest.Here? && if width > 0 then First(Record(def), path) == MemberBit(def, path.k) && w == width
              else First(Record(def), path) == MarkBit(def, path.k) && w == (if def.isUnion then LastBit(f.ty) else 0)
  {
    hide MemberBit, MarkBit, LastBit;
  }

  /** Every place ends no later than the type's last bit. */
  lemma {:induction false} PlaceEnds(ty: CType, path: Path)
    requires TypeOk(ty) && Unpacked(ty) && IsPlace(ty, path)
    ensures 0 < LastBit(ty) && First(ty, path) + Width(ty, path) <= LastBit(ty)
    decreases ty
  {
    hide RoundUp, MemberBit, MarkBit, Last, Slot, Steps;
    match ty
    case Qual(inner) => PlaceEnds(inner, path);
    case Array(elem, n) =>
      PlaceEnds(elem, path.rest);
      StepsGrow(path.k, n - 1, Slot(elem));
    case Vector(lane, n) =>
      ScalarSize(lane);
      OneStepMore(path.k + 1, ScalarBits(lane));
      StepsGrow(path.k + 1, n, ScalarBits(lane));
      StepsGrow(1, n, ScalarBits(lane));
      OneStep(ScalarBits(lane));
    case Record(def) =>
      if path.In? {
        AtMember(def, path);
        FieldIsOk(def, path.k);
        LastHolds(def, path.k, |def.fields|);
        if def.fields[path.k].bitWidth.None? { PlaceEnds(def.fields[path.k].ty, path.rest); }
      }
    case _ =>
  }

  lemma OneStep(m: nat)
    ensures Steps(1, m) == m
  { }

  /** ... and some place ends there, if the type has any. */
  lemma {:induction false} LastPlace(ty: CType) returns (path: Path)
    requires TypeOk(ty) && Unpacked(ty) && LastBit(ty) > 0
    ensures IsPlace(ty, path) && First(ty, path) + Width(ty, path) == LastBit(ty)
    decreases ty, 1
  {
    hide RoundUp, MemberBit, MarkBit, Last, Slot, Steps;
    match ty
    case Qual(inner) => path := LastPlace(inner);
    case Array(elem, n) =>
      var rest := LastPlace(elem);
      path := In(n - 1, rest);
    case Vector(lane, n) =>
      NoSteps(n, ScalarBits(lane));
      OneStepMore(n, ScalarBits(lane));
      path := In(n - 1, Here);
    case Record(def) =>
      if Last(def, |def.fields|) == 0 { path := Here; }
      else { path := LastMember(def, |def.fields|); }
    case _ => path := Here;
  }

  lemma {:induction false} LastMember(def: RecordDef, n: nat) returns (path: Path)
    requires DefOk(def) && UnpackedDef(def) && n <= |def.fields| && Last(def, n) > 0
    ensures IsPlace(Record(def), path) && First(Record(def), path) + Width(Record(def), path) == Last(def, n)
    decreases def, n
  {
    hide RoundUp, MemberBit, MarkBit, LastBit, DefOk;
    if Last(def, n) == Last(def, n - 1) { path := LastMember(def, n - 1); }
    else {
      var f := def.fields[n - 1];
      FieldIsOk(def, n - 1);
      if f.bitWidth.Some? { path := In(n - 1, Here); }
      else {
        var rest := LastPlace(f.ty);
        path := In(n - 1, rest);
      }
      AtMember(def, path);
    }
  }

  ghost predicate EndsBy(ty: CType, path: Path, bit: nat) {
    IsPlace(ty, path) ==> First(ty, path) + Width(ty, path) <= bit
  }

  /** All of the type's places lie before `bit`. */
  ghost predicate AllEndBy(ty: CType, bit: nat) {
    forall path :: EndsBy(ty, path, bit)
  }

  lemma AllEndIff(ty: CType, bit: nat)
    requires TypeOk(ty) && Unpacked(ty)
    ensures AllEndBy(ty, bit) <==> LastBit(ty) <= bit
  {
    hide First, Width, LastBit, IsPlace, TypeOk, Unpacked;
    if LastBit(ty) <= bit {
      forall path: Path ensures EndsBy(ty, path, bit) {
        if IsPlace(ty, path) { PlaceEnds(ty, path); }
      }
    } else {
      var path := LastPlace(ty);
      assert !EndsBy(ty, path, bit);
    }
  }

  /** All places lie inside the size, and the size is the least that holds them:
      `k` alignments are enough for the type exactly when they are enough for every
      place in it. */
  lemma SizeIsLeastHolding(ty: CType, k: nat)
    requires TypeOk(ty) && Unpacked(ty)
    ensures AllEndBy(ty, 8 * SizeOf(ty))
    ensures var size := Steps(k, AlignOf(ty)); SizeOf(ty) <= size <==> AllEndBy(ty, 8 * size)
  {
    hide RoundUp, AlignOf, SizeOf, LastBit, AllEndBy, Steps;
    SizeSame(ty);
    var size := Steps(k, AlignOf(ty));
    AllEndIff(ty, 8 * SizeOf(ty));
    AllEndIff(ty, 8 * size);
    WholeSteps(k, AlignOf(ty));
    EightDivides(AlignOf(ty), size);
    RoundUpIs(8 * SizeOf(ty), 8 * AlignOf(ty));
    if LastBit(ty) <= 8 * size { LeastMultiple(LastBit(ty), 8 * AlignOf(ty), 8 * size); }
  }

  /** Is the size not rounded up? */
  predicate Bare(ty: CType) {
    match ty
    case Qual(inner) => Bare(inner)
    case Vector(_, _) => true
    case Record(def) => Last(def, |def.fields|) == 0
    case _ => false
  }

  /** The size is itself a whole number of alignments, but that a vector, and a
      record with nothing in it, takes no more than its places. */
  lemma {:induction false} SizeIsWhole(ty: CType)
    requires TypeOk(ty) && Unpacked(ty)
    ensures AlignOf(ty) >= 1
    ensures if Bare(ty) then AllEndBy(ty, 8 * SizeOf(ty)) && (SizeOf(ty) > 0 ==> !AllEndBy(ty, 8 * SizeOf(ty) - 1))
            else SizeOf(ty) % AlignOf(ty) == 0
    decreases ty
  {
    hide RoundUp, AlignOf, SizeOf, LastBit, AllEndBy, Steps, Last;
    SizeSame(ty);
    if Bare(ty) {
      BareSize(ty);
      AllEndIff(ty, 8 * SizeOf(ty));
      if SizeOf(ty) > 0 { AllEndIff(ty, 8 * SizeOf(ty) - 1); }
    } else if ty.Qual? {
      SizeIsWhole(ty.inner);
      QualIs(ty.inner);
    } else if ty.Array? {
      SizeSame(ty.elem);
      ArrayAligns(ty.elem, ty.count);
      ArrayIs(ty.elem, ty.count);
      RoundUpIs(SizeOf(ty.elem), AlignOf(ty.elem));
      StepsMultiple(ty.count, RoundUp(SizeOf(ty.elem), AlignOf(ty.elem)), AlignOf(ty.elem));
      Commuted(RoundUp(SizeOf(ty.elem), AlignOf(ty.elem)), ty.count);
    } else if ty.Record? {
      RecordSame(ty.def);
    } else {
      ScalarSize(ty);
      WholeScalar(ty);
    }
  }

  lemma Commuted(a: nat, n: nat)
    ensures Steps(n, a) == a * n
  { }

  lemma WholeScalar(ty: CType)
    requires Scalar(ty) && !ty.Qual?
    ensures AlignOf(ty) >= 1 && SizeOf(ty) % AlignOf(ty) == 0
  { }

  lemma {:induction false} BareSize(ty: CType)
    requires TypeOk(ty) && Unpacked(ty) && Bare(ty)
    ensures 8 * SizeOf(ty) == LastBit(ty)
    decreases ty
  {
    hide RoundUp, AlignOf, Steps, Last;
    if ty.Qual? { BareSize(ty.inner); }
    else if ty.Vector? { VectorSize(ty.lane, ty.lanes); }
    else { EmptySize(ty.def); }
  }

  lemma EmptySize(def: RecordDef)
    requires DefOk(def) && UnpackedDef(def) && Last(def, |def.fields|) == 0
    ensures SizeOf(Record(def)) == 1 && LastBit(Record(def)) == 8
  {
    hide RoundUp, Last, Placed, Follows, IsPow2, DefOk, Same;
    var p, l := Placed(def, |def.fields|), RecordLayout(def);
    var bits := if def.isUnion then 8 * p.offsetBits else p.offsetBits;
    if def.isUnion { UnionFollows(def, |def.fields|); } else { StructFollows(def, |def.fields|); }
    FollowsNone(bits, p.align);
    RoundUpIs(0, 8 * l.align);
    RoundUpIs(0, l.align);
  }

  lemma FollowsNone(bits: nat, align: nat)
    requires Follows(bits, 0, align)
    ensures bits == 0
  {
    hide IsPow2;
    RoundZero(bits, 8 * align);
  }

  // ---------------------------------------------------------- no two overlap

  /** Do the two places part inside a union? */
  predicate Overlaid(ty: CType, p: Path, q: Path)
    requires IsPlace(ty, p) && IsPlace(ty, q)
    decreases ty
  {
    match ty
    case Qual(inner) => Overlaid(inner, p, q)
    case Array(elem, _) => p.k == q.k && Overlaid(elem, p.rest, q.rest)
    case Record(def) =>
      p.In? && q.In? &&
      if p.k != q.k then def.isUnion
      else def.fields[p.k].bitWidth.None? && Overlaid(def.fields[p.k].ty, p.rest, q.rest)
    case _ => false
  }

  /** No bit belongs to both. */
  ghost predicate NoneShared(at: nat, width: nat, at': nat, width': nat) {
    width == 0 || width' == 0 || at + width <= at' || at' + width' <= at
  }

  /** Two places overlap nowhere, unless a union lays them over each other. */
  lemma {:induction false} PlacesApart(ty: CType, p: Path, q: Path)
    requires TypeOk(ty) && Unpacked(ty) && IsPlace(ty, p) && IsPlace(ty, q) && p != q && !Overlaid(ty, p, q)
    ensures NoneShared(First(ty, p), Width(ty, p), First(ty, q), Width(ty, q))
    decreases ty
  {
    hide RoundUp, MemberBit, MarkBit, Last, LastBit, Slot, Steps, DefOk;
    if ty.Qual? { PlacesApart(ty.inner, p, q); }
    else if ty.Array? {
      if p.k == q.k { PlacesApart(ty.elem, p.rest, q.rest); }
      else if p.k < q.k { ElementsApart(ty.elem, p, q); } else { ElementsApart(ty.elem, q, p); }
    } else if ty.Vector? {
      if p.k < q.k { LanesApart(p.k, q.k, ScalarBits(ty.lane)); } else { LanesApart(q.k, p.k, ScalarBits(ty.lane)); }
    } else if ty.Record? {
      var def := ty.def;
      if p.Here? { AtMember(def, q); NothingThere(ty, def, q); }
      else if q.Here? { AtMember(def, p); NothingThere(ty, def, p); }
      else {
        AtMember(def, p);
        AtMember(def, q);
        FieldIsOk(def, p.k);
        if p.k == q.k { PlacesApart(def.fields[p.k].ty, p.rest, q.rest); }
        else if p.k < q.k { MembersApart(def, p, q); } else { MembersApart(def, q, p); }
      }
    }
  }

  lemma ElementsApart(elem: CType, p: Path, q: Path)
    requires TypeOk(elem) && Unpacked(elem) && p.In? && q.In? && p.k < q.k && IsPlace(elem, p.rest)
    ensures Steps(p.k, Slot(elem)) + First(elem, p.rest) + Width(elem, p.rest) <= Steps(q.k, Slot(elem))
  {
    hide RoundUp, LastBit, First, Width, Steps, AlignOf;
    PlaceEnds(elem, p.rest);
    SizeSame(elem);
    RoundUpIs(LastBit(elem), 8 * AlignOf(elem));
    OneStepMore(p.k + 1, Slot(elem));
    StepsGrow(p.k + 1, q.k, Slot(elem));
  }

  lemma LanesApart(k: nat, j: nat, w: nat)
    requires k < j
    ensures Steps(k, w) + w <= Steps(j, w)
  {
    OneStepMore(k + 1, w);
    StepsGrow(k + 1, j, w);
  }

  lemma NothingThere(ty: CType, def: RecordDef, q: Path)
    requires ty == Record(def) && DefOk(def) && UnpackedDef(def) && Last(def, |def.fields|) == 0
    requires q.In? && IsPlace(ty, q)
    ensures Width(ty, q) == 0
  {
    hide MemberBit, MarkBit, Last, LastBit, DefOk;
    AtMember(def, q);
    FieldIsOk(def, q.k);
    LastHolds(def, q.k, |def.fields|);
    if def.fields[q.k].bitWidth.None? { PlaceEnds(def.fields[q.k].ty, q.rest); }
  }

  lemma MembersApart(def: RecordDef, p: Path, q: Path)
    requires DefOk(def) && UnpackedDef(def) && !def.isUnion && p.In? && q.In? && p.k < q.k
    requires IsPlace(Record(def), p) && IsPlace(Record(def), q)
    ensures NoneShared(First(Record(def), p), Width(Record(def), p), First(Record(def), q), Width(Record(def), q))
  {
    hide MarkBit, Last, LastBit, DefOk, RecordLayout, Placed, MemberOk, IsPow2, SizeOf, IsPlace, First, Width;
    AtMember(def, p);
    AtMember(def, q);
    FieldIsOk(def, p.k);
    if IsMember(def.fields[p.k]) && IsMember(def.fields[q.k]) {
      StructInvariant(def);
      var place := Placed(def, |def.fields|);
      assert MemberBit(def, p.k) == Begins(place, p.k) && MemberBit(def, q.k) == Begins(place, q.k);
      if def.fields[p.k].bitWidth.None? {
        PlaceEnds(def.fields[p.k].ty, p.rest);
        SizeSame(def.fields[p.k].ty);
      }
    }
  }

  // -------------------------------------------------------------- each aligned

  /** May the place be at bit `at`? A scalar is aligned, a bit-field inside one unit of
      its declared type. */
  predicate Sits(ty: CType, path: Path, at: nat)
    requires IsPlace(ty, path)
    decreases ty
  {
    match ty
    case Qual(inner) => Sits(inner, path, at)
    case Array(elem, _) => Sits(elem, path.rest, at)
    case Vector(lane, _) => AlignedTo(at, ScalarAlign(lane))
    case Record(def) =>
      path.In? ==>
        var f := def.fields[path.k];
        (match f.bitWidth
         case Some(w) => w > 0 ==> ScalarBits(f.ty) > 0 && at % ScalarBits(f.ty) + w <= ScalarBits(f.ty)
         case None => Sits(f.ty, path.rest, at))
    case _ => AlignedTo(at, ScalarAlign(ty))
  }

  predicate AlignedTo(at: nat, bits: nat) {
    bits > 0 && at % bits == 0
  }

  lemma AlignedIn(at: nat, outer: nat, inner: nat)
    requires AlignedTo(at, 8 * outer) && inner >= 1 && outer % inner == 0
    ensures AlignedTo(at, 8 * inner)
  {
    EightDivides(inner, outer);
    DividesTrans(8 * inner, 8 * outer, at);
  }

  /** Wherever an aligned object lies, every place in it is aligned. */
  lemma {:induction false} PlaceSits(ty: CType, path: Path, base: nat)
    requires TypeOk(ty) && Unpacked(ty) && IsPlace(ty, path) && AlignedTo(base, 8 * AlignOf(ty))
    ensures Sits(ty, path, base + First(ty, path))
    decreases ty
  {
    hide RoundUp, MemberBit, MarkBit, Last, LastBit, Slot, Steps, DefOk, AlignOf, SizeOf, AlignedTo;
    if ty.Qual? {
      QualIs(ty.inner);
      PlaceSits(ty.inner, path, base);
    } else if ty.Array? {
      ArrayAligns(ty.elem, ty.count);
      ElementAligned(ty.elem, path.k, base);
      PlaceSits(ty.elem, path.rest, base + Steps(path.k, Slot(ty.elem)));
    } else if ty.Vector? {
      LaneAligned(ty.lane, ty.lanes, path.k, base);
    } else if ty.Record? {
      if path.In? {
        AtMember(ty.def, path);
        FieldIsOk(ty.def, path.k);
        RecordIs(ty.def);
        MemberSits(ty.def, path.k, base);
        var f := ty.def.fields[path.k];
        if f.bitWidth.None? { PlaceSits(f.ty, path.rest, base + MemberBit(ty.def, path.k)); }
      }
    } else {
      ScalarSize(ty);
    }
  }

  lemma ElementAligned(elem: CType, k: nat, base: nat)
    requires TypeOk(elem) && Unpacked(elem) && AlignedTo(base, 8 * AlignOf(elem))
    ensures AlignedTo(base + Steps(k, Slot(elem)), 8 * AlignOf(elem))
  {
    hide RoundUp, LastBit, Steps, AlignOf;
    SizeSame(elem);
    RoundUpIs(LastBit(elem), 8 * AlignOf(elem));
    StepsMultiple(k, Slot(elem), 8 * AlignOf(elem));
    DividesSum(8 * AlignOf(elem), base, Steps(k, Slot(elem)));
  }

  lemma LaneAligned(lane: CType, n: nat, k: nat, base: nat)
    requires (lane.Int? || lane.Float?) && k < n && AlignedTo(base, 8 * AlignOf(Vector(lane, n)))
    ensures AlignedTo(base + Steps(k, ScalarBits(lane)), ScalarAlign(lane))
  {
    hide AlignOf, SizeOf, Steps, IsPow2;
    ScalarSize(lane);
    VectorAligns(lane, n);
    AlignIsPow2(lane);
    AlignIsPow2(Vector(lane, n));
    Pow2Divides(AlignOf(lane), AlignOf(Vector(lane, n)));
    AlignedIn(base, AlignOf(Vector(lane, n)), AlignOf(lane));
    StepsMultiple(k, ScalarBits(lane), ScalarAlign(lane));
    DividesSum(ScalarAlign(lane), base, Steps(k, ScalarBits(lane)));
  }

  lemma VectorAligns(lane: CType, n: nat)
    requires (lane.Int? || lane.Float?) && n >= 1
    ensures AlignOf(lane) <= AlignOf(Vector(lane, n))
  {
    hide NextPowerOfTwo;
    OneStep(SizeOf(lane));
    StepsGrow(1, n, SizeOf(lane));
    Commuted(SizeOf(lane), n);
    NextPowerIs(SizeOf(lane) * n, 0);
    ScalarSize(lane);
  }

  /** The smallest power of two that is no less than `n`. */
  lemma NextPowerIs(n: nat, j: nat)
    ensures NextPowerOfTwo(n) >= n && (NextPowerOfTwo(n) <= Pow2(j) <==> n <= Pow2(j))
  {
    PowerFromIs(n, 0, j);
  }

  lemma {:induction false} PowerFromIs(n: nat, k: nat, j: nat)
    requires k <= n && (k > 0 ==> Pow2(k - 1) < n)
    ensures PowerFrom(n, k) >= n && (PowerFrom(n, k) <= Pow2(j) <==> n <= Pow2(j))
    decreases n - k
  {
    Exceeds(n);
    if Pow2(k) >= n || k == n {
      if j >= k { PowersGrow(k, j); }
      else { PowersGrow(j, k - 1); }
    } else {
      PowerFromIs(n, k + 1, j);
    }
  }

  lemma {:induction false} Exceeds(n: nat)
    ensures Pow2(n) > n
  {
    if n > 0 { Exceeds(n - 1); }
  }

  lemma {:induction false} PowersGrow(i: nat, j: nat)
    requires i <= j
    ensures Pow2(i) <= Pow2(j)
    decreases j
  {
    if i < j { PowersGrow(i, j - 1); }
  }

  lemma MemberSits(def: RecordDef, k: nat, base: nat)
    requires DefOk(def) && UnpackedDef(def) && k < |def.fields| && AlignedTo(base, 8 * RecordLayout(def).align)
    ensures var f, at := def.fields[k], base + MemberBit(def, k);
            match f.bitWidth
            case None => AlignedTo(at, 8 * AlignOf(f.ty))
            case Some(w) => w > 0 ==> ScalarBits(f.ty) > 0 && at % ScalarBits(f.ty) + w <= ScalarBits(f.ty)
  {
    hide RecordLayout, AlignOf, SizeOf, IsPow2, DefOk, UnitBits, ScalarBits;
    var f, l := def.fields[k], RecordLayout(def);
    FieldIsOk(def, k);
    if IsMember(f) {
      OwnMemberFits(def, k);
      AlignedIn(base, l.align, AlignOf(f.ty));
      if f.bitWidth.None? {
        LaidBits(def, k);
        EightDivides(AlignOf(f.ty), l.offsets[k]);
        DividesSum(8 * AlignOf(f.ty), base, 8 * l.offsets[k]);
      } else {
        DeclaredUnit(f);
        LaidField(def, k);
        var bp := l.bits[k].value;
        EightDivides(AlignOf(f.ty), l.offsets[k]);
        DividesSum(bp.unitBits, base, 8 * l.offsets[k]);
        InUnit(base + 8 * l.offsets[k], bp.bitOffset, bp.unitBits);
      }
    }
  }

  lemma InUnit(at: nat, offset: nat, unit: nat)
    requires unit > 0 && at % unit == 0 && offset < unit
    ensures (at + offset) % unit == offset
  {
    DivModUnique(at + offset, unit, at / unit, offset);
  }

  lemma LaidBits(def: RecordDef, k: nat)
    requires k < |def.fields| && def.fields[k].bitWidth.None?
    ensures RecordLayout(def).bits[k].None?
  {
    hide Placed;
    PlacedBits(def, |def.fields|, k);
  }

  /** A bit-field's placement, in a struct or a union: it names the field's declared
      type, width and sign. */
  lemma LaidField(def: RecordDef, k: nat)
    requires DefOk(def) && UnpackedDef(def) && k < |def.fields|
    requires def.fields[k].bitWidth.Some? && def.fields[k].bitWidth.value > 0
    ensures var f, bits := def.fields[k], RecordLayout(def).bits[k];
            && bits.Some? && PlacementOk(bits.value)
            && bits.value.unitBits == ScalarBits(f.ty) && Some(bits.value.width) == f.bitWidth && bits.value.signed == SignedType(f.ty)
  {
    hide Placed, IsPow2, AlignOf, SizeOf, FieldAlign, UnitBits, ScalarBits, SignedType;
    FieldIsOk(def, k);
    DeclaredUnit(def.fields[k]);
    if def.isUnion {
      UnionPlaces(def, |def.fields|, k);
      UnionField(def, |def.fields|, k);
    } else {
      StructInvariant(def);
      PackedTightly(def, |def.fields|);
      assert MemberOk(def.fields[k], RecordLayout(def).offsets[k], RecordLayout(def).bits[k], RecordLayout(def).align);
      assert MemberFirstAt(def, Placed(def, |def.fields|), k);
    }
  }

  lemma {:induction false} UnionField(def: RecordDef, n: nat, i: nat)
    requires def.isUnion && i < n <= |def.fields| && def.fields[i].bitWidth.Some? && def.fields[i].bitWidth.value > 0
    ensures var f, bits := def.fields[i], Placed(def, n).bits[i];
            bits.Some? && Some(bits.value.width) == f.bitWidth && bits.value.signed == SignedType(f.ty)
    decreases n
  {
    hide AlignOf, SizeOf, FieldAlign, IsSigned, SignedType;
    if i < n - 1 { UnionField(def, n - 1, i); }
    SignedIs(def.fields[i].ty);
  }

  // ------------------------------------------------------- what an alignment is

  /** Is `a` alignment enough for all that a type is made of? For a scalar its own,
      for a vector its length, for a record what it and its members ask; packing
      asks nothing but what is written out. */
  ghost predicate Accepts(ty: CType, a: nat)
    decreases ty, 1
  {
    match ty
    case Qual(inner) => Accepts(inner, a)
    case Array(elem, _) => Accepts(elem, a)
    case Vector(lane, n) => Steps(n, ScalarBits(lane)) <= 8 * a
    case Record(def) =>
      (def.align.Some? ==> def.align.value <= a) && forall i :: 0 <= i < |def.fields| ==> MemberAccepts(def, i, a)
    case _ => ScalarAlign(ty) <= 8 * a
  }

  ghost predicate MemberAccepts(def: RecordDef, i: nat, a: nat)
    requires i < |def.fields|
    decreases def, i
  {
    var f := def.fields[i];
    && (def.packed || f.bitWidth == Some(0) || Accepts(f.ty, a))
    && (f.bitWidth.None? && f.align.Some? ==> f.align.value <= a)
  }

  ghost predicate LanesOk(ty: CType)
    decreases ty
  {
    match ty
    case Qual(inner) => LanesOk(inner)
    case Array(elem, _) => LanesOk(elem)
    case Record(def) => LanesOkDef(def)
    case Vector(lane, _) => lane.Int? || lane.Float?
    case _ => true
  }

  ghost predicate LanesOkDef(def: RecordDef)
    decreases def
  {
    forall i :: 0 <= i < |def.fields| ==> LanesOk(def.fields[i].ty)
  }

  /** A type's alignment, packed or not, is the least power of two that is enough. */
  lemma {:induction false} AlignIsLeast(ty: CType, k: nat)
    requires LanesOk(ty)
    ensures AlignOf(ty) <= Pow2(k) <==> Accepts(ty, Pow2(k))
    decreases ty, 1
  {
    hide Pow2, AlignOf, SizeOf, Steps, MemberAccepts;
    match ty
    case Qual(inner) =>
      QualIs(inner);
      AlignIsLeast(inner, k);
    case Array(elem, n) =>
      ArrayAligns(elem, n);
      AlignIsLeast(elem, k);
    case Vector(lane, n) =>
      VectorSize(lane, n);
      VectorAlign(lane, n);
      NextPowerIs(SizeOf(ty), k);
    case Record(def) =>
      forall i: nat | i < |def.fields| ensures MemberAccepts(def, i, Pow2(k)) <==> Asks(def.fields[i], def.packed) <= Pow2(k) {
        AlignIsLeast(def.fields[i].ty, k);
        MemberAsks(def, i, Pow2(k));
      }
      RecordIs(def);
      RecordAlignIs(def, Pow2(k));
    case _ => ScalarSize(ty);
  }

  lemma VectorAlign(lane: CType, n: nat)
    ensures AlignOf(Vector(lane, n)) == NextPowerOfTwo(SizeOf(Vector(lane, n)))
  { }

  lemma MemberAsks(def: RecordDef, i: nat, a: nat)
    requires i < |def.fields| && a >= 1 && (AlignOf(def.fields[i].ty) <= a <==> Accepts(def.fields[i].ty, a))
    ensures MemberAccepts(def, i, a) <==> Asks(def.fields[i], def.packed) <= a
  {
    hide Accepts, AlignOf;
  }

  lemma RecordAlignIs(def: RecordDef, a: nat)
    requires a >= 1
    ensures RecordLayout(def).align <= a <==>
              && (def.align.Some? ==> def.align.value <= a)
              && forall i: nat :: i < |def.fields| ==> Asks(def.fields[i], def.packed) <= a
  {
    hide RecordLayout, Asks;
    AlignIsLargest(def);
  }

  // ------------------------------------------------------------ members by name

  predicate Own(f: Field, name: string) {
    !f.anonymous && f.name == name
  }

  /** The record behind an anonymous member. */
  function Opened(f: Field): (r: Option<RecordDef>)
    ensures r.Some? ==> r.value < f
  {
    UnqualifiedInside(f.ty);
    if f.anonymous && Unqualified(f.ty).Record? then Some(Unqualified(f.ty).def) else None
  }

  /** Does the path lead through anonymous records to a member of that name? */
  predicate Names(def: RecordDef, path: Path, name: string)
    decreases path
  {
    path.In? && path.k < |def.fields| &&
    if path.rest.Here? then Own(def.fields[path.k], name)
    else Opened(def.fields[path.k]).Some? && Names(Opened(def.fields[path.k]).value, path.rest, name)
  }

  /** The member at the end of the path, all the offsets on the way added up. */
  function Member(def: RecordDef, path: Path, name: string): Resolved
    requires Names(def, path, name)
    decreases path
  {
    var f, l := def.fields[path.k], RecordLayout(def);
    if path.rest.Here? then Resolved(l.offsets[path.k], f.ty, l.bits[path.k])
    else
      var r := Member(Opened(f).value, path.rest, name);
      r.(offset := l.offsets[path.k] + r.offset)
  }

  /** Is it the one to find? A record's own members win, and of anonymous records the
      first that has the name. */
  ghost predicate Chosen(def: RecordDef, path: Path, name: string)
    decreases path
  {
    && Names(def, path, name)
    && (forall k :: 0 <= k < (if path.rest.Here? then path.k else |def.fields|) ==> !Own(def.fields[k], name))
    && (path.rest.In? ==>
          && Chosen(Opened(def.fields[path.k]).value, path.rest, name)
          && forall k: nat :: k < path.k ==> !NamesIn(def.fields[k], name))
  }

  ghost predicate NamesIn(f: Field, name: string) {
    Opened(f).Some? && exists path :: Names(Opened(f).value, path, name)
  }

  ghost predicate Finds(def: RecordDef, name: string, r: Resolved) {
    exists path :: Chosen(def, path, name) && r == Member(def, path, name)
  }

  ghost predicate NoneNamed(def: RecordDef, name: string) {
    forall path :: !Names(def, path, name)
  }

  lemma {:induction false} FirstNamed(fields: seq<Field>, name: string, i: nat)
    requires i <= |fields|
    ensures var r := NamedFrom(fields, name, i);
            forall k :: i <= k < (if r.Some? then r.value else |fields|) ==> !Own(fields[k], name)
    decreases |fields| - i
  {
    if i < |fields| { FirstNamed(fields, name, i + 1); }
  }

  /** A lookup gives the member the name stands for, and nothing only where no member
      inside has it. */
  lemma {:induction false} ResolveIs(def: RecordDef, name: string)
    ensures match Resolve(def, name) case Some(r) => Finds(def, name, r) case None => NoneNamed(def, name)
    decreases def, |def.fields| + 1
  {
    hide RecordLayout;
    FirstNamed(def.fields, name, 0);
    match NamedFrom(def.fields, name, 0)
    case Some(i) => assert Chosen(def, In(i, Here), name);
    case None => ResolveFromIs(def, name, 0);
  }

  lemma {:induction false} ResolveFromIs(def: RecordDef, name: string, i: nat)
    requires i <= |def.fields|
    requires forall k :: 0 <= k < |def.fields| ==> !Own(def.fields[k], name)
    requires forall k: nat :: k < i ==> !NamesIn(def.fields[k], name)
    ensures match ResolveFrom(def, name, i) case Some(r) => Finds(def, name, r) case None => NoneNamed(def, name)
    decreases def, |def.fields| - i
  {
    hide RecordLayout;
    if i < |def.fields| {
      var f := def.fields[i];
      var sub := Opened(f);
      if sub.Some? {
        ResolveIs(sub.value, name);
        if Resolve(sub.value, name).Some? { FoundInside(def, name, i, Resolve(sub.value, name).value); }
        else { ResolveFromIs(def, name, i + 1); }
      } else { ResolveFromIs(def, name, i + 1); }
    } else {
      forall path: Path ensures !Names(def, path, name) {
        if path.In? && path.k < |def.fields| && path.rest.In? { assert !NamesIn(def.fields[path.k], name); }
      }
    }
  }

  lemma FoundInside(def: RecordDef, name: string, i: nat, r: Resolved)
    requires i < |def.fields| && Opened(def.fields[i]).Some? && Finds(Opened(def.fields[i]).value, name, r)
    requires forall k :: 0 <= k < |def.fields| ==> !Own(def.fields[k], name)
    requires forall k: nat :: k < i ==> !NamesIn(def.fields[k], name)
    ensures Finds(def, name, r.(offset := RecordLayout(def).offsets[i] + r.offset))
  {
    hide RecordLayout;
    var sub := Opened(def.fields[i]).value;
    var path :| Chosen(sub, path, name) && r == Member(sub, path, name);
    assert Chosen(def, In(i, path), name);
  }
}
