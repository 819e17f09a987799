/** What record layout guarantees of structs that are not packed, and that
    bit-fields do not disturb each other. */
module LayoutLaws {
  import opened Wrappers
  import opened Bits
  import opened BitField
  import opened Layout

  // ------------------------------------------------------------ powers of two

  ghost predicate IsPow2(n: nat) {
    exists k: nat :: n == Pow2(k)
  }

  lemma Pow2Divides(a: nat, b: nat)
    requires IsPow2(a) && IsPow2(b) && a <= b
    ensures a >= 1 && b % a == 0
  {
    var j: nat, k: nat :| a == Pow2(j) && b == Pow2(k);
    if j <= k {
      Pow2Adds(j, k - j);
      DivModUnique(b, a, Pow2(k - j), 0);
    } else {
      Pow2Adds(k, j - k);
      Between(Pow2(k), Pow2(j - k), a);
      DivModUnique(b, a, 1, 0);
    }
  }

  lemma Between(b: nat, m: nat, a: nat)
    requires a == b * m && a <= b && m >= 1 && b >= 1
    ensures a == b
  { }

  lemma SmallPow2()
    ensures IsPow2(1) && IsPow2(2) && IsPow2(4) && IsPow2(8) && IsPow2(16)
  {
    assert Pow2(0) == 1 && Pow2(1) == 2 && Pow2(2) == 4;
    assert Pow2(3) == 8;
    assert Pow2(4) == 16;
  }

  lemma RoundUpIs(value: nat, align: nat)
    requires align >= 1
    ensures value <= RoundUp(value, align) < value + align && RoundUp(value, align) % align == 0
    ensures value == 0 ==> RoundUp(value, align) == 0
    ensures value > 0 ==> RoundUp(value, align) >= align
  {
    RoundsUp(value, align);
    var q := (value + align - 1) / align;
    DivModUnique(q * align, align, q, 0);
    if value == 0 { DivModUnique(align - 1, align, 0, align - 1); }
    else { AtLeastOne(value + align - 1, align); Multiples(align, q); }
  }

  lemma AtLeastOne(x: nat, a: nat)
    requires 1 <= a <= x
    ensures x / a >= 1
  { }

  lemma DividesTrans(a: nat, b: nat, x: nat)
    requires a >= 1 && b >= 1 && b % a == 0 && x % b == 0
    ensures x % a == 0
  {
    var k, m := b / a, x / b;
    assert b == a * k && x == b * m;
    assert x == a * (k * m);
    DivModUnique(x, a, k * m, 0);
  }

  lemma DividesSum(a: nat, x: nat, y: nat)
    requires a >= 1 && x % a == 0 && y % a == 0
    ensures (x + y) % a == 0
  {
    var k, m := x / a, y / a;
    assert x == a * k && y == a * m;
    assert x + y == a * (k + m);
    DivModUnique(x + y, a, k + m, 0);
  }

  // ------------------------------------------------------- what is laid out

  /** What the parser accepts of a member: a bit-field has a type of at most 64
      bits and fits it, a `_Bool` one has at most one bit; alignments are powers
      of two. */
  ghost predicate FieldOk(f: Field)
    decreases f
  {
    && TypeOk(f.ty)
    && (f.align.Some? ==> IsPow2(f.align.value))
    && (f.bitWidth == Some(0) ==> f.name == "" && !f.anonymous)
    && (f.bitWidth.Some? ==>
          var t := Unqualified(f.ty);
          (t.Bool? && f.bitWidth.value <= 1) || (t.Int? && t.width <= 64 && f.bitWidth.value <= t.width))
  }

  ghost predicate TypeOk(ty: CType)
    decreases ty
  {
    match ty
    case Qual(inner) => TypeOk(inner)
    case Array(elem, _) => TypeOk(elem)
    case Record(def) => DefOk(def)
    case _ => true
  }

  ghost predicate DefOk(def: RecordDef)
    decreases def
  {
    && (forall i :: 0 <= i < |def.fields| ==> FieldOk(def.fields[i]))
    && (def.align.Some? ==> IsPow2(def.align.value))
  }

  lemma {:induction false} AlignIsPow2(ty: CType)
    requires TypeOk(ty)
    ensures IsPow2(AlignOf(ty))
    decreases ty, 1
  {
    SmallPow2();
    match ty
    case Qual(inner) => AlignIsPow2(inner);
    case Array(elem, _) => AlignIsPow2(elem);
    case Record(def) => RecordAlign(def);
    case Vector(_, _) => var _ := PowerFrom(SizeOf(ty), 0);
    case _ =>
  }

  lemma {:induction false} FieldAlignIsPow2(f: Field, packed: bool)
    requires FieldOk(f)
    ensures IsPow2(FieldAlign(f, packed))
    decreases f, 2
  {
    SmallPow2();
    AlignIsPow2(f.ty);
  }

  lemma {:induction false} PlacedAlign(def: RecordDef, n: nat)
    requires DefOk(def) && n <= |def.fields|
    ensures IsPow2(Placed(def, n).align)
    decreases def, n, 2
  {
    SmallPow2();
    if n > 0 {
      PlacedAlign(def, n - 1);
      var f := def.fields[n - 1];
      assert FieldOk(f);
      AlignIsPow2(f.ty);
      FieldAlignIsPow2(f, def.packed);
      var p := Placed(def, n - 1);
      assert Placed(def, n) == if def.isUnion then OverlayField(f, def.packed, p) else PlaceField(f, def.packed, p);
      OneAlign(f, def.packed, p);
    }
  }

  lemma OneAlign(f: Field, packed: bool, p: Progress)
    ensures forall q: Progress :: q == OverlayField(f, packed, p) || q == PlaceField(f, packed, p) ==>
              q.align == p.align || q.align == AlignOf(f.ty) || q.align == FieldAlign(f, packed)
  { }

  lemma {:induction false} RecordAlign(def: RecordDef)
    requires DefOk(def)
    ensures IsPow2(RecordLayout(def).align) && RecordLayout(def).align >= 1
    decreases def, |def.fields|, 3
  {
    SmallPow2();
    PlacedAlign(def, |def.fields|);
  }

  // -------------------------------------------------------- where members lie

  /** A `:0` only moves what follows it. */
  predicate IsMember(f: Field) {
    f.bitWidth != Some(0)
  }

  function BitCount(f: Field): nat {
    match f.bitWidth case Some(w) => w case None => 8 * SizeOf(f.ty)
  }

  /** A bit-field lies in an aligned unit of its declared type. */
  ghost predicate UnitOk(f: Field, offset: nat, bp: BitPlacement, align: nat) {
    && PlacementOk(bp) && f.bitWidth == Some(bp.width) && bp.unitBits == UnitBits(f.ty)
    && bp.unitBits == 8 * AlignOf(f.ty) && (8 * offset) % bp.unitBits == 0 && align % AlignOf(f.ty) == 0
  }

  ghost predicate MemberOk(f: Field, offset: nat, bits: Option<BitPlacement>, align: nat) {
    match f.bitWidth
    case None =>
      bits.None? && FieldAlign(f, false) >= 1 && offset % FieldAlign(f, false) == 0 && align % FieldAlign(f, false) == 0
    case Some(w) => if w == 0 then bits.None? && offset == 0 else bits.Some? && UnitOk(f, offset, bits.value, align)
  }

  lemma BitFieldUnit(f: Field)
    requires FieldOk(f) && f.bitWidth.Some? && f.bitWidth.value > 0
    ensures var u := UnitBits(f.ty); (u == 8 || u == 16 || u == 32 || u == 64) && f.bitWidth.value <= u && u == 8 * AlignOf(f.ty)
  {
    AlignUnqualified(f.ty);
  }

  lemma {:induction false} AlignUnqualified(ty: CType)
    ensures AlignOf(ty) == AlignOf(Unqualified(ty)) && SizeOf(ty) == SizeOf(Unqualified(ty))
    decreases ty
  {
    if ty.Qual? { AlignUnqualified(ty.inner); }
  }

  lemma MaxDivides(a: nat, b: nat)
    requires IsPow2(a) && IsPow2(b)
    ensures IsPow2(Max(a, b)) && Max(a, b) >= 1 && Max(a, b) % a == 0 && Max(a, b) % b == 0
  {
    if a <= b {
      Pow2Divides(a, b);
      Pow2Divides(b, b);
    } else {
      Pow2Divides(b, a);
      Pow2Divides(a, a);
    }
  }

  /** Placing one member of a struct: it lies after all that came before. */
  lemma PlacedAfter(f: Field, p: Progress)
    requires FieldOk(f) && IsPow2(p.align)
    ensures var p1 := PlaceField(f, false, p);
            var offset, bits := p1.offsets[|p.offsets|], p1.bits[|p.bits|];
            && p.offsetBits <= p1.offsetBits && |p1.offsets| == |p.offsets| + 1 && |p1.bits| == |p.bits| + 1
            && p1.offsets[..|p.offsets|] == p.offsets && p1.bits[..|p.bits|] == p.bits
            && IsPow2(p1.align) && p1.align % p.align == 0
            && MemberOk(f, offset, bits, p1.align)
            && (IsMember(f) ==>
                  var first := 8 * offset + (if bits.Some? then bits.value.bitOffset else 0);
                  p.offsetBits <= first && first + BitCount(f) == p1.offsetBits)
  {
    hide Pow2, IsPow2, AlignOf, SizeOf, RoundUp;
    if f.bitWidth.None? { MemberPlaced(f, p); }
    else if f.bitWidth.value == 0 {
      RoundUpIs(p.offsetBits, UnitBits(f.ty));
      MaxDivides(p.align, p.align);
    } else { BitFieldPlaced(f, p); }
  }

  lemma MemberPlaced(f: Field, p: Progress)
    requires FieldOk(f) && IsPow2(p.align) && f.bitWidth.None?
    ensures var a := FieldAlign(f, false);
            var at := RoundUp(p.offsetBits, a * 8);
            && IsPow2(Max(p.align, a)) && Max(p.align, a) % p.align == 0
            && a >= 1 && at >= p.offsetBits && 8 * (at / 8) == at && (at / 8) % a == 0 && Max(p.align, a) % a == 0
  {
    hide Pow2, IsPow2, AlignOf, SizeOf, RoundUp, FieldAlign;
    var a := FieldAlign(f, false);
    FieldAlignIsPow2(f, false);
    MaxDivides(p.align, a);
    Pow2Divides(a, a);
    RoundUpIs(p.offsetBits, a * 8);
    BytesOf(RoundUp(p.offsetBits, a * 8), a);
  }

  /** A whole number of `a`-byte steps, in bits. */
  lemma BytesOf(bits: nat, a: nat)
    requires a >= 1 && bits % (a * 8) == 0
    ensures 8 * (bits / 8) == bits && (bits / 8) % a == 0
  {
    var k := bits / (a * 8);
    assert bits == (a * 8) * k;
    assert bits == 8 * (a * k);
    DivModUnique(bits, 8, a * k, 0);
    DivModUnique(a * k, a, k, 0);
  }

  lemma BitFieldPlaced(f: Field, p: Progress)
    requires FieldOk(f) && IsPow2(p.align) && f.bitWidth.Some? && f.bitWidth.value > 0
    ensures var unit, w := UnitBits(f.ty), f.bitWidth.value;
            var at := FieldStart(p, unit, w, false);
            var unitStart := UnitStart(at, unit);
            var align := Max(p.align, AlignOf(f.ty));
            && IsPow2(align) && align % p.align == 0 && p.offsetBits <= at
            && 8 * (unitStart / 8) == unitStart
            && UnitOk(f, unitStart / 8, BitPlacement(unit, at - unitStart, w, IsSigned(f.ty)), align)
  {
    hide Pow2, IsPow2, AlignOf, SizeOf, RoundUp;
    BitFieldUnit(f);
    AlignIsPow2(f.ty);
    MaxDivides(p.align, AlignOf(f.ty));
    var unit, w := UnitBits(f.ty), f.bitWidth.value;
    RoundUpIs(p.offsetBits, unit);
    var at := FieldStart(p, unit, w, false);
    UnitAligned(at, unit, AlignOf(f.ty));
  }

  lemma UnitAligned(at: nat, unit: nat, a: nat)
    requires unit == 8 * a && a >= 1
    ensures UnitStart(at, unit) % unit == 0 && 8 * (UnitStart(at, unit) / 8) == UnitStart(at, unit)
  {
    var q := at / unit;
    DivModUnique(q * unit, unit, q, 0);
    assert q * unit == 8 * (a * q);
    DivModUnique(q * unit, 8, a * q, 0);
  }

  // ------------------------------------------------------- the struct invariant

  /** Of the members placed so far: each is where its kind demands, and each lies
      wholly before the next. */
  ghost predicate StructOk(def: RecordDef, n: nat, p: Progress)
    requires n <= |def.fields| && |p.offsets| == |p.bits| == n
  {
    && IsPow2(p.align)
    && (forall i: nat :: i < n ==> MemberOk(def.fields[i], p.offsets[i], p.bits[i], p.align))
    && (forall i: nat :: i < n && IsMember(def.fields[i]) ==> Ends(def, p, i) <= p.offsetBits)
    && (forall i: nat, j: nat :: i < j < n && IsMember(def.fields[i]) && IsMember(def.fields[j]) ==>
          Ends(def, p, i) <= Begins(p, j))
  }

  function Begins(p: Progress, i: nat): nat
    requires i < |p.offsets| && i < |p.bits|
  {
    8 * p.offsets[i] + (if p.bits[i].Some? then p.bits[i].value.bitOffset else 0)
  }

  function Ends(def: RecordDef, p: Progress, i: nat): nat
    requires i < |p.offsets| && i < |p.bits| && i < |def.fields|
  {
    Begins(p, i) + BitCount(def.fields[i])
  }

  lemma MoreAligned(f: Field, offset: nat, bits: Option<BitPlacement>, a: nat, b: nat)
    requires MemberOk(f, offset, bits, a) && IsPow2(a) && IsPow2(b) && b % a == 0
    ensures MemberOk(f, offset, bits, b)
  {
    hide Pow2, IsPow2, AlignOf, SizeOf, FieldAlign;
    Pow2Positive(a);
    Pow2Positive(b);
    if f.bitWidth.None? { DividesTrans(FieldAlign(f, false), a, b); }
    else if f.bitWidth.value > 0 {
      AlignPositive(bits.value);
      DividesTrans(AlignOf(f.ty), a, b);
    }
  }

  lemma Pow2Positive(a: nat)
    requires IsPow2(a)
    ensures a >= 1
  { }

  lemma AlignPositive(bp: BitPlacement)
    requires PlacementOk(bp)
    ensures bp.unitBits >= 8
  { }

  lemma {:induction false} PlacedOk(def: RecordDef, n: nat)
    requires DefOk(def) && !def.isUnion && !def.packed && n <= |def.fields|
    ensures StructOk(def, n, Placed(def, n))
    decreases n
  {
    if n == 0 {
      SmallPow2();
    } else {
      PlacedOk(def, n - 1);
      assert FieldOk(def.fields[n - 1]);
      OneMore(def, n, Placed(def, n - 1));
    }
  }

  lemma OneMore(def: RecordDef, n: nat, p: Progress)
    requires 0 < n <= |def.fields| && |p.offsets| == |p.bits| == n - 1 && StructOk(def, n - 1, p)
    requires FieldOk(def.fields[n - 1])
    ensures StructOk(def, n, PlaceField(def.fields[n - 1], false, p))
  {
    hide MemberOk, IsPow2, PlaceField, BitCount, FieldOk;
    var f := def.fields[n - 1];
    var p1 := PlaceField(f, false, p);
    PlacedAfter(f, p);
    SamePlaces(def, n, p, p1);
    forall i: nat | i < n ensures MemberOk(def.fields[i], p1.offsets[i], p1.bits[i], p1.align) {
      if i < n - 1 { MoreAligned(def.fields[i], p.offsets[i], p.bits[i], p.align, p1.align); }
    }
    forall i: nat | i < n && IsMember(def.fields[i]) ensures Ends(def, p1, i) <= p1.offsetBits {
      if i < n - 1 { assert Ends(def, p1, i) == Ends(def, p, i); }
    }
    forall i: nat, j: nat | i < j < n && IsMember(def.fields[i]) && IsMember(def.fields[j]) ensures Ends(def, p1, i) <= Begins(p1, j) {
      assert Ends(def, p1, i) == Ends(def, p, i);
      if j < n - 1 { assert Begins(p1, j) == Begins(p, j); }
    }
  }

  lemma SamePlaces(def: RecordDef, n: nat, p: Progress, p1: Progress)
    requires 0 < n <= |def.fields| && |p.offsets| == |p.bits| == n - 1 && |p1.offsets| == |p1.bits| == n
    requires p1.offsets[..n - 1] == p.offsets && p1.bits[..n - 1] == p.bits
    ensures forall i: nat :: i < n - 1 ==> p1.offsets[i] == p.offsets[i] && p1.bits[i] == p.bits[i]
    ensures forall i: nat :: i < n - 1 ==> Begins(p1, i) == Begins(p, i) && Ends(def, p1, i) == Ends(def, p, i)
  {
    hide BitCount;
    forall i: nat | i < n - 1 ensures p1.offsets[i] == p.offsets[i] && p1.bits[i] == p.bits[i] {
      assert p1.offsets[..n - 1][i] == p1.offsets[i] && p1.bits[..n - 1][i] == p1.bits[i];
    }
  }

  // ---------------------------------------------------------------- main results

  ghost predicate PlainStruct(def: RecordDef) {
    DefOk(def) && !def.isUnion && !def.packed
  }

  /** The whole layout of a struct: every member is aligned or in an aligned
      unit, no two overlap, and all of it lies inside the record. */
  lemma StructInvariant(def: RecordDef)
    requires PlainStruct(def)
    ensures var l := RecordLayout(def); var p := Placed(def, |def.fields|);
            && l.offsets == p.offsets && l.bits == p.bits
            && IsPow2(l.align) && l.align >= 1
            && (forall i: nat :: i < |def.fields| ==> MemberOk(def.fields[i], l.offsets[i], l.bits[i], l.align))
            && (forall i: nat, j: nat :: i < j < |def.fields| && IsMember(def.fields[i]) && IsMember(def.fields[j]) ==>
                  Ends(def, p, i) <= Begins(p, j))
            && (forall i: nat :: i < |def.fields| && IsMember(def.fields[i]) ==> Inside(def, l, i))
  {
    hide MemberOk, IsPow2, StructOk, BitCount;
    var n := |def.fields|;
    var l, p := RecordLayout(def), Placed(def, n);
    PlacedOk(def, n);
    RecordAlign(def);
    StructParts(def, n, p);
    var align := if def.align.Some? then Max(p.align, def.align.value) else p.align;
    AlignRaised(p.align, def.align);
    forall i: nat | i < n ensures MemberOk(def.fields[i], l.offsets[i], l.bits[i], l.align) {
      MoreAligned(def.fields[i], p.offsets[i], p.bits[i], p.align, l.align);
    }
    forall i: nat | i < n && IsMember(def.fields[i]) ensures Inside(def, l, i) {
      assert FieldOk(def.fields[i]);
      MemberInside(def, i);
    }
  }

  lemma AlignRaised(a: nat, raised: Option<nat>)
    requires IsPow2(a) && (raised.Some? ==> IsPow2(raised.value))
    ensures var b := Max(if raised.Some? then Max(a, raised.value) else a, 1); IsPow2(b) && b % a == 0 && b >= 1 && a >= 1
  {
    hide IsPow2;
    MaxDivides(a, a);
    if raised.Some? { MaxDivides(a, raised.value); }
  }

  lemma StructParts(def: RecordDef, n: nat, p: Progress)
    requires n == |def.fields| && |p.offsets| == |p.bits| == n && StructOk(def, n, p)
    ensures IsPow2(p.align)
    ensures forall i: nat :: i < n ==> MemberOk(def.fields[i], p.offsets[i], p.bits[i], p.align)
    ensures forall i: nat :: i < n && IsMember(def.fields[i]) ==> Ends(def, p, i) <= p.offsetBits
    ensures forall i: nat, j: nat :: i < j < n && IsMember(def.fields[i]) && IsMember(def.fields[j]) ==>
              Ends(def, p, i) <= Begins(p, j)
  { }

  /** A member, with the whole unit if it is a bit-field, lies inside the record. */
  ghost predicate Inside(def: RecordDef, l: Laid, i: nat)
    requires i < |def.fields| && i < |l.offsets| && i < |l.bits|
  {
    if l.bits[i].Some? then 8 * l.offsets[i] + l.bits[i].value.unitBits <= 8 * l.size
    else l.offsets[i] + SizeOf(def.fields[i].ty) <= l.size
  }

  lemma MemberInside(def: RecordDef, i: nat)
    requires PlainStruct(def) && i < |def.fields| && IsMember(def.fields[i])
    requires var l := RecordLayout(def); MemberOk(def.fields[i], l.offsets[i], l.bits[i], l.align)
    requires var p := Placed(def, |def.fields|); Ends(def, p, i) <= p.offsetBits
    ensures Inside(def, RecordLayout(def), i)
  {
    hide RoundUp, AlignOf, SizeOf, IsPow2, Placed;
    var l, p := RecordLayout(def), Placed(def, |def.fields|);
    var total := RoundUp(p.offsetBits, l.align * 8);
    RecordAlign(def);
    RoundUpIs(p.offsetBits, l.align * 8);
    BytesOf(total, l.align);
    if l.bits[i].Some? {
      var bp := l.bits[i].value;
      UnitFits(8 * l.offsets[i], bp.unitBits, l.align, AlignOf(def.fields[i].ty), total, bp.bitOffset + bp.width);
    }
  }

  /** An aligned unit that some bit before the end of the record belongs to ends
      no later than the record does. */
  lemma UnitFits(at: nat, unit: nat, align: nat, a: nat, total: nat, used: nat)
    requires unit == 8 * a && a >= 1 && at % unit == 0 && align >= 1 && align % a == 0 && total % (align * 8) == 0
    requires 0 < used && at + used <= total
    ensures at + unit <= total
  {
    var k, m, q := align / a, total / (align * 8), at / unit;
    assert align == a * k && total == (align * 8) * m && at == unit * q;
    assert total == unit * (k * m);
    Multiples(unit, k * m - q);
    assert unit * (k * m - q) == total - at;
  }

  /** Does the record have a member of nonzero size? */
  predicate HasContent(def: RecordDef, n: nat)
    requires n <= |def.fields|
  {
    exists i :: 0 <= i < n && (if def.isUnion then SizeOf(def.fields[i].ty) else BitCount(def.fields[i])) > 0
  }

  lemma {:induction false} ContentCounts(def: RecordDef, n: nat)
    requires DefOk(def) && n <= |def.fields|
    ensures Placed(def, n).offsetBits > 0 <==> HasContent(def, n)
    decreases n
  {
    hide AlignOf, IsPow2, FieldAlign;
    if n > 0 {
      ContentCounts(def, n - 1);
      var p, f := Placed(def, n - 1), def.fields[n - 1];
      assert FieldOk(f);
      assert HasContent(def, n) <==> HasContent(def, n - 1) || (if def.isUnion then SizeOf(f.ty) else BitCount(f)) > 0;
      RoundUpIs(p.offsetBits, UnitBits(f.ty));
      FieldAlignIsPow2(f, def.packed);
      Pow2Positive(FieldAlign(f, def.packed));
      RoundUpIs(p.offsetBits, FieldAlign(f, def.packed) * 8);
    }
  }

  /** The size is a multiple of the alignment exactly when the record has content
      or needs no alignment: an empty one is given one byte whatever it asks for. */
  lemma SizeIsMultiple(def: RecordDef)
    requires DefOk(def)
    ensures var l := RecordLayout(def);
            l.size % l.align == 0 <==> HasContent(def, |def.fields|) || l.align == 1
  {
    hide RoundUp, AlignOf, SizeOf, IsPow2, Placed, HasContent;
    var l, p := RecordLayout(def), Placed(def, |def.fields|);
    RecordAlign(def);
    ContentCounts(def, |def.fields|);
    if def.isUnion {
      RoundUpIs(p.offsetBits, l.align);
    } else {
      RoundUpIs(p.offsetBits, l.align * 8);
      BytesOf(RoundUp(p.offsetBits, l.align * 8), l.align);
    }
    if p.offsetBits == 0 { OneMod(l.align); }
  }

  lemma OneMod(a: nat)
    requires a >= 1
    ensures 1 % a == 0 <==> a == 1
  {
    if a > 1 { DivModUnique(1, a, 0, 1); }
  }

  lemma {:induction false} UnionOverlays(def: RecordDef, n: nat, i: nat)
    requires def.isUnion && i < n <= |def.fields|
    ensures var p := Placed(def, n); p.offsets[i] == 0 && SizeOf(def.fields[i].ty) <= p.offsetBits
    ensures var p := Placed(def, n); p.bits[i].Some? ==> p.bits[i].value.bitOffset == 0
    decreases n
  {
    hide AlignOf, SizeOf, FieldAlign;
    if i < n - 1 { UnionOverlays(def, n - 1, i); }
  }

  /** Members of a union, packed or not, all begin where it does and lie inside it; so
      does the unit of a bit-field. */
  lemma UnionFits(def: RecordDef, i: nat)
    requires DefOk(def) && def.isUnion && i < |def.fields|
    ensures var l := RecordLayout(def);
            && l.offsets[i] == 0 && SizeOf(def.fields[i].ty) <= l.size
            && (l.bits[i].Some? ==> l.bits[i].value.bitOffset == 0 && l.bits[i].value.unitBits <= 8 * l.size)
  {
    hide SizeOf, AlignOf, RoundUp, Placed, FieldOk;
    var l, p, f := RecordLayout(def), Placed(def, |def.fields|), def.fields[i];
    UnionOverlays(def, |def.fields|, i);
    RecordAlign(def);
    RoundUpIs(p.offsetBits, l.align);
    if l.bits[i].Some? {
      UnionUnit(def, |def.fields|, i);
      assert FieldOk(f);
      UnitIsType(f);
    }
  }

  lemma {:induction false} UnionUnit(def: RecordDef, n: nat, i: nat)
    requires def.isUnion && i < n <= |def.fields| && Placed(def, n).bits[i].Some?
    ensures Placed(def, n).bits[i].value.unitBits == UnitBits(def.fields[i].ty)
    ensures def.fields[i].bitWidth.Some? && def.fields[i].bitWidth.value > 0
    decreases n
  {
    hide AlignOf, SizeOf, FieldAlign;
    if i < n - 1 { UnionUnit(def, n - 1, i); }
  }

  // -------------------------------------------------------- isolation of members

  /** Writing one bit-field of a struct, at any address: reading it back gives the
      value the write returned, the written value cut to the field's width; every
      other member, bit-field or not, reads as it did. */
  lemma FieldsAreIsolated(def: RecordDef, i: nat, j: nat, mem: Memory, base: nat, value: Word)
    requires PlainStruct(def) && i < |def.fields| && j < |def.fields| && i != j
    requires IsMember(def.fields[i]) && IsMember(def.fields[j]) && def.fields[i].bitWidth.Some?
    requires 8 * (base + RecordLayout(def).size) <= |mem|
    requires |value| == UnitBits(def.fields[i].ty)
    ensures var l := RecordLayout(def);
            && l.bits[i].Some? && PlacementOk(l.bits[i].value) && l.bits[i].value.unitBits == |value|
            && InBounds(mem, base + l.offsets[i], l.bits[i].value)
            && l.bits[i].value.width == def.fields[i].bitWidth.value
            && var (mem', result) := WriteAt(mem, base + l.offsets[i], l.bits[i].value, value);
            && |mem'| == |mem|
            && ReadAt(mem', base + l.offsets[i], l.bits[i].value) == result
            && result == Wrapped(value[..l.bits[i].value.width], l.bits[i].value)
            && (l.bits[j].Some? ==>
                  && PlacementOk(l.bits[j].value) && InBounds(mem, base + l.offsets[j], l.bits[j].value)
                  && ReadAt(mem', base + l.offsets[j], l.bits[j].value) == ReadAt(mem, base + l.offsets[j], l.bits[j].value))
            && (l.bits[j].None? ==>
                  && 8 * (base + l.offsets[j]) + 8 * SizeOf(def.fields[j].ty) <= |mem|
                  && Load(mem', base + l.offsets[j], 8 * SizeOf(def.fields[j].ty))
                     == Load(mem, base + l.offsets[j], 8 * SizeOf(def.fields[j].ty)))
  {
    hide IsPow2, AlignOf, SizeOf, RecordLayout, Placed, DefOk, ReadAt, WriteAt, Wrapped, Load;
    var l, p := RecordLayout(def), Placed(def, |def.fields|);
    StructInvariant(def);
    var bp := l.bits[i].value;
    assert MemberOk(def.fields[i], l.offsets[i], l.bits[i], l.align) && Inside(def, l, i);
    assert MemberOk(def.fields[j], l.offsets[j], l.bits[j], l.align) && Inside(def, l, j);
    WriteThenRead(mem, base + l.offsets[i], bp, value);
    WriteAtIs(mem, base + l.offsets[i], bp, value);
    var mem' := WriteAt(mem, base + l.offsets[i], bp, value).0;
    assert if i < j then Ends(def, p, i) <= Begins(p, j) else Ends(def, p, j) <= Begins(p, i);
    if l.bits[j].Some? {
      OtherField(mem, mem', base + l.offsets[j], l.bits[j].value);
    } else {
      OtherBytes(mem, mem', base + l.offsets[j], 8 * SizeOf(def.fields[j].ty));
    }
  }

  lemma OtherField(mem: Memory, mem': Memory, offset: nat, bp: BitPlacement)
    requires PlacementOk(bp) && InBounds(mem, offset, bp) && |mem'| == |mem|
    requires forall k :: Start(offset, bp) <= k < Start(offset, bp) + bp.width ==> mem'[k] == mem[k]
    ensures ReadAt(mem', offset, bp) == ReadAt(mem, offset, bp)
  {
    hide ReadAt, Wrapped;
    ReadAtIs(mem, offset, bp);
    ReadAtIs(mem', offset, bp);
    var lo, hi := Start(offset, bp), Start(offset, bp) + bp.width;
    assert mem'[lo..hi] == mem[lo..hi];
  }

  lemma OtherBytes(mem: Memory, mem': Memory, offset: nat, n: nat)
    requires 8 * offset + n <= |mem| && |mem'| == |mem|
    requires forall k :: 8 * offset <= k < 8 * offset + n ==> mem'[k] == mem[k]
    ensures Load(mem', offset, n) == Load(mem, offset, n)
  {
    var lo, hi := 8 * offset, 8 * offset + n;
    assert mem'[lo..hi] == mem[lo..hi];
  }

  // ------------------------------------------------ members of anonymous members

  datatype Resolved = Resolved(offset: nat, ty: CType, bits: Option<BitPlacement>)

  /** The first member of that name, from the `i`th on. */
  function NamedFrom(fields: seq<Field>, name: string, i: nat): (r: Option<nat>)
    requires i <= |fields|
    ensures r.Some? ==> i <= r.value < |fields| && !fields[r.value].anonymous && fields[r.value].name == name
    decreases |fields| - i
  {
    if i == |fields| then None
    else if !fields[i].anonymous && fields[i].name == name then Some(i)
    else NamedFrom(fields, name, i + 1)
  }

  /** A member by name: one of the record's own, else one of an anonymous
      member's, its offset added to the anonymous member's. */
  function Resolve(def: RecordDef, name: string): Option<Resolved>
    decreases def, |def.fields| + 1
  {
    var l := RecordLayout(def);
    match NamedFrom(def.fields, name, 0)
    case Some(i) => Some(Resolved(l.offsets[i], def.fields[i].ty, l.bits[i]))
    case None => ResolveFrom(def, name, 0)
  }

  function ResolveFrom(def: RecordDef, name: string, i: nat): Option<Resolved>
    requires i <= |def.fields|
    decreases def, |def.fields| - i
  {
    if i == |def.fields| then None
    else
      var f := def.fields[i];
      UnqualifiedInside(f.ty);
      var inner := if f.anonymous && Unqualified(f.ty).Record? then Resolve(Unqualified(f.ty).def, name) else None;
      match inner
      case Some(r) => Some(r.(offset := RecordLayout(def).offsets[i] + r.offset))
      case None => ResolveFrom(def, name, i + 1)
  }

  lemma {:induction false} UnqualifiedInside(ty: CType)
    ensures Unqualified(ty) == ty || Unqualified(ty) < ty
    decreases ty
  {
    if ty.Qual? { UnqualifiedInside(ty.inner); }
  }

  /** No record at any depth is packed. */
  ghost predicate NonePacked(def: RecordDef)
    decreases def
  {
    !def.packed && forall i :: 0 <= i < |def.fields| ==> NonePackedType(def.fields[i].ty)
  }

  ghost predicate NonePackedType(ty: CType)
    decreases ty
  {
    match ty
    case Qual(inner) => NonePackedType(inner)
    case Record(def) => NonePacked(def)
    case _ => true
  }

  /** A place for a member of a record of this size and alignment: aligned for its
      type, and inside. */
  ghost predicate Fits(r: Resolved, size: nat, align: nat) {
    && AlignOf(r.ty) >= 1 && align % AlignOf(r.ty) == 0 && r.offset % AlignOf(r.ty) == 0
    && match r.bits
       case Some(bp) => PlacementOk(bp) && 8 * r.offset + bp.unitBits <= 8 * size
       case None => r.offset + SizeOf(r.ty) <= size
  }

  lemma NaturalDivides(f: Field)
    requires FieldOk(f)
    ensures AlignOf(f.ty) >= 1 && FieldAlign(f, false) >= 1 && FieldAlign(f, false) % AlignOf(f.ty) == 0
  {
    hide IsPow2, AlignOf;
    AlignIsPow2(f.ty);
    MaxDivides(AlignOf(f.ty), AlignOf(f.ty));
    if f.align.Some? { MaxDivides(AlignOf(f.ty), f.align.value); }
  }

  /** A record's own member fits it, in a struct or a union. */
  lemma OwnMemberFits(def: RecordDef, i: nat)
    requires DefOk(def) && !def.packed && i < |def.fields| && IsMember(def.fields[i])
    ensures var l := RecordLayout(def); Fits(Resolved(l.offsets[i], def.fields[i].ty, l.bits[i]), l.size, l.align)
  {
    hide IsPow2, AlignOf, SizeOf, FieldAlign, RoundUp;
    var f := def.fields[i];
    assert FieldOk(f);
    if def.isUnion { UnionMemberFits(def, i); } else { StructMemberFits(def, i); }
  }

  lemma StructMemberFits(def: RecordDef, i: nat)
    requires PlainStruct(def) && i < |def.fields| && IsMember(def.fields[i]) && FieldOk(def.fields[i])
    ensures var l := RecordLayout(def); Fits(Resolved(l.offsets[i], def.fields[i].ty, l.bits[i]), l.size, l.align)
  {
    hide IsPow2, AlignOf, SizeOf, FieldAlign, RecordLayout, Placed;
    var f, l := def.fields[i], RecordLayout(def);
    StructInvariant(def);
    assert MemberOk(f, l.offsets[i], l.bits[i], l.align) && Inside(def, l, i);
    NaturalDivides(f);
    if f.bitWidth.None? {
      DividesTrans(AlignOf(f.ty), FieldAlign(f, false), l.offsets[i]);
      DividesTrans(AlignOf(f.ty), FieldAlign(f, false), l.align);
    } else {
      InBytes(l.offsets[i], AlignOf(f.ty), UnitBits(f.ty), 8 * l.offsets[i]);
    }
  }

  lemma InBytes(offset: nat, a: nat, unit: nat, at: nat)
    requires a >= 1 && unit == 8 * a && at == 8 * offset && at % unit == 0
    ensures offset % a == 0
  {
    var k := at / unit;
    assert at == unit * k;
    Regroup(unit, a, k);
    DivModUnique(offset, a, k, 0);
  }

  lemma Regroup(unit: nat, a: nat, k: nat)
    requires unit == 8 * a
    ensures unit * k == 8 * (a * k)
  { }

  lemma UnionMemberFits(def: RecordDef, i: nat)
    requires DefOk(def) && !def.packed && def.isUnion && i < |def.fields| && IsMember(def.fields[i]) && FieldOk(def.fields[i])
    ensures var l := RecordLayout(def); Fits(Resolved(l.offsets[i], def.fields[i].ty, l.bits[i]), l.size, l.align)
  {
    hide IsPow2, AlignOf, SizeOf, FieldAlign, RoundUp, Placed;
    var f, l, p := def.fields[i], RecordLayout(def), Placed(def, |def.fields|);
    UnionOverlays(def, |def.fields|, i);
    UnionPlaces(def, |def.fields|, i);
    assert OverlayOk(f, p.bits[i], p.align);
    NaturalDivides(f);
    PlacedAlign(def, |def.fields|);
    AlignRaised(p.align, def.align);
    Pow2Positive(p.align);
    DividesTrans(AlignOf(f.ty), p.align, l.align);
    RoundUpIs(p.offsetBits, l.align);
    if f.bitWidth.Some? { UnitIsType(f); }
  }

  lemma UnitIsType(f: Field)
    requires FieldOk(f) && f.bitWidth.Some? && f.bitWidth.value > 0
    ensures UnitBits(f.ty) == 8 * SizeOf(f.ty)
  {
    AlignUnqualified(f.ty);
  }

  lemma {:induction false} UnionPlaces(def: RecordDef, n: nat, i: nat)
    requires DefOk(def) && !def.packed && def.isUnion && i < n <= |def.fields| && IsMember(def.fields[i])
    ensures OverlayOk(def.fields[i], Placed(def, n).bits[i], Placed(def, n).align)
    decreases n
  {
    hide IsPow2, AlignOf, SizeOf, FieldAlign, OverlayField, OverlayOk;
    var p, g := Placed(def, n - 1), def.fields[n - 1];
    assert FieldOk(g) && FieldOk(def.fields[i]);
    PlacedAlign(def, n - 1);
    OverlayPlaced(g, p);
    if i < n - 1 {
      UnionPlaces(def, n - 1, i);
      OverlayKept(def.fields[i], p.bits[i], p.align, Placed(def, n).align);
    }
  }

  /** A union member's placement, and that the union is aligned for it. */
  ghost predicate OverlayOk(f: Field, bits: Option<BitPlacement>, align: nat) {
    && AlignOf(f.ty) >= 1 && align >= 1 && align % AlignOf(f.ty) == 0
    && (f.bitWidth.None? ==> bits.None?)
    && (f.bitWidth.Some? ==> bits.Some? && PlacementOk(bits.value) && bits.value.unitBits == UnitBits(f.ty))
  }

  lemma OverlayKept(f: Field, bits: Option<BitPlacement>, a: nat, b: nat)
    requires OverlayOk(f, bits, a) && b >= 1 && b % a == 0
    ensures OverlayOk(f, bits, b)
  {
    DividesTrans(AlignOf(f.ty), a, b);
  }

  lemma OverlayPlaced(g: Field, p: Progress)
    requires FieldOk(g) && IsPow2(p.align)
    ensures var p1 := OverlayField(g, false, p);
            && p1.align >= 1 && p1.align % p.align == 0 && p1.bits[..|p.bits|] == p.bits && |p1.bits| == |p.bits| + 1
            && (IsMember(g) ==> OverlayOk(g, p1.bits[|p.bits|], p1.align))
  {
    hide IsPow2, AlignOf, SizeOf, FieldAlign;
    AlignIsPow2(g.ty);
    FieldAlignIsPow2(g, false);
    MaxDivides(p.align, AlignOf(g.ty));
    MaxDivides(p.align, FieldAlign(g, false));
    MaxDivides(p.align, p.align);
    NaturalDivides(g);
    if g.bitWidth.None? { DividesTrans(AlignOf(g.ty), FieldAlign(g, false), Max(p.align, FieldAlign(g, false))); }
    else if g.bitWidth.value > 0 { BitFieldUnit(g); }
  }

  lemma {:induction false} PlacedBits(def: RecordDef, n: nat, i: nat)
    requires i < n <= |def.fields| && def.fields[i].bitWidth.None?
    ensures Placed(def, n).bits[i].None?
    decreases n
  {
    hide AlignOf, SizeOf, FieldAlign, RoundUp;
    if i < n - 1 { PlacedBits(def, n - 1, i); }
  }

  /** A member found by name, however deep, is aligned for its type and lies inside
      the record; a bit-field's unit does. */
  lemma {:induction false} ResolvedFits(def: RecordDef, name: string)
    requires DefOk(def) && NonePacked(def) && name != "" && Resolve(def, name).Some?
    ensures Fits(Resolve(def, name).value, RecordLayout(def).size, RecordLayout(def).align)
    decreases def, |def.fields| + 1
  {
    hide Fits, RecordLayout, DefOk;
    match NamedFrom(def.fields, name, 0)
    case Some(i) =>
      FieldIsOk(def, i);
      OwnMemberFits(def, i);
    case None => ResolvedFromFits(def, name, 0);
  }

  lemma FieldIsOk(def: RecordDef, i: nat)
    requires DefOk(def) && i < |def.fields|
    ensures FieldOk(def.fields[i]) && (def.fields[i].name != "" || def.fields[i].anonymous ==> IsMember(def.fields[i]))
  { }

  lemma {:induction false} ResolvedFromFits(def: RecordDef, name: string, i: nat)
    requires DefOk(def) && NonePacked(def) && name != "" && i <= |def.fields| && ResolveFrom(def, name, i).Some?
    ensures Fits(ResolveFrom(def, name, i).value, RecordLayout(def).size, RecordLayout(def).align)
    decreases def, |def.fields| - i
  {
    hide Fits, RecordLayout, DefOk;
    var f := def.fields[i];
    FieldIsOk(def, i);
    UnqualifiedInside(f.ty);
    if f.anonymous && Unqualified(f.ty).Record? && Resolve(Unqualified(f.ty).def, name).Some? {
      var sub := Unqualified(f.ty).def;
      RecordInside(f.ty);
      ResolvedFits(sub, name);
      OwnMemberFits(def, i);
      PlacedBits(def, |def.fields|, i) by { RecordNoBits(f); }
      assert RecordLayout(def).bits[i].None? by { SameBits(def); }
      NestedFits(def, i, sub, Resolve(sub, name).value);
    } else {
      ResolvedFromFits(def, name, i + 1);
    }
  }

  lemma RecordNoBits(f: Field)
    requires FieldOk(f) && Unqualified(f.ty).Record?
    ensures f.bitWidth.None?
  { }

  lemma SameBits(def: RecordDef)
    ensures RecordLayout(def).bits == Placed(def, |def.fields|).bits
  { }

  lemma {:induction false} RecordInside(ty: CType)
    requires TypeOk(ty) && NonePackedType(ty) && Unqualified(ty).Record?
    ensures DefOk(Unqualified(ty).def) && NonePacked(Unqualified(ty).def)
    decreases ty
  {
    if ty.Qual? { RecordInside(ty.inner); }
  }

  lemma NestedFits(def: RecordDef, i: nat, sub: RecordDef, r: Resolved)
    requires i < |def.fields| && Unqualified(def.fields[i].ty) == Record(sub)
    requires var l := RecordLayout(def); Fits(Resolved(l.offsets[i], def.fields[i].ty, l.bits[i]), l.size, l.align)
    requires RecordLayout(def).bits[i].None?
    requires Fits(r, RecordLayout(sub).size, RecordLayout(sub).align)
    ensures var l := RecordLayout(def); Fits(r.(offset := l.offsets[i] + r.offset), l.size, l.align)
  {
    hide RecordLayout;
    var l, inner := RecordLayout(def), RecordLayout(sub);
    AlignUnqualified(def.fields[i].ty);
    var a := AlignOf(r.ty);
    DividesTrans(a, inner.align, l.align);
    DividesTrans(a, inner.align, l.offsets[i]);
    DividesSum(a, l.offsets[i], r.offset);
  }
}
