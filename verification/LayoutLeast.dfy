/** Record layout is not only correct but the least: every member begins as early
    as it may, the record is no longer and no more aligned than it must be. */
module LayoutLeast {
  import opened Wrappers
  import opened Bits
  import opened BitField
  import opened Layout
  import opened LayoutLaws

  // --------------------------------------------------------------- one member

  /** May member `f` begin at bit `at`? An ordinary member keeps its alignment, a
      bit-field does not straddle its unit unless the record is packed. */
  predicate MayBegin(f: Field, packed: bool, at: nat) {
    match f.bitWidth
    case None => FieldAlign(f, packed) >= 1 && at % (8 * FieldAlign(f, packed)) == 0
    case Some(w) => packed || at % UnitBits(f.ty) + w <= UnitBits(f.ty)
  }

  /** `at` is the first place from `from` on where `f` may begin. */
  ghost predicate BeginsFirst(f: Field, packed: bool, from: nat, at: nat) {
    from <= at && MayBegin(f, packed, at) && forall q: nat :: from <= q < at ==> !MayBegin(f, packed, q)
  }

  /** A bit-field's placement names its declared unit, width and signedness. */
  ghost predicate PlacementIs(f: Field, bits: Option<BitPlacement>) {
    match f.bitWidth
    case None => bits.None?
    case Some(w) =>
      bits.Some? && bits.value.unitBits == UnitBits(f.ty) && bits.value.width == w
      && bits.value.signed == SignedType(f.ty) && bits.value.bitOffset < UnitBits(f.ty)
  }

  predicate SignedType(ty: CType) {
    match ty
    case Qual(inner) => SignedType(inner)
    case Int(_, signed) => signed
    case _ => false
  }

  lemma {:induction false} SignedIs(ty: CType)
    ensures IsSigned(ty) == SignedType(ty)
    decreases ty
  {
    if ty.Qual? { SignedIs(ty.inner); }
  }

  lemma NoneBetween(value: nat, m: nat, q: nat)
    requires m >= 1 && value <= q < RoundUp(value, m)
    ensures q % m != 0
  {
    RoundUpIs(value, m);
    var r := RoundUp(value, m);
    var k, j := r / m, q / m;
    if q % m == 0 {
      assert r == m * k && q == m * j;
      Closer(m, k, j);
    }
  }

  lemma Closer(m: nat, k: nat, j: nat)
    requires m >= 1 && m * j < m * k
    ensures m * j + m <= m * k
  {
    assert j < k;
    Multiples(m, k - j);
  }

  /** Going up from `value` to the next unit boundary, the place in the unit only
      moves on. */
  lemma FurtherIn(value: nat, unit: nat, q: nat)
    requires unit >= 1 && value <= q < RoundUp(value, unit)
    ensures q % unit >= value % unit
  {
    var k, r := value / unit, value % unit;
    NextBoundary(value, unit, k, r);
    DivModUnique(q, unit, k, q - k * unit);
  }

  lemma NextBoundary(value: nat, unit: nat, k: nat, r: nat)
    requires unit >= 1 && value == k * unit + r && r < unit
    ensures RoundUp(value, unit) == if r == 0 then value else k * unit + unit
  {
    if r == 0 { DivModUnique(value + unit - 1, unit, k, unit - 1); }
    else {
      DivModUnique(value + unit - 1, unit, k + 1, r - 1);
      assert (k + 1) * unit == k * unit + unit;
    }
  }

  lemma PlacedFirst(f: Field, packed: bool, p: Progress)
    requires FieldOk(f) && IsMember(f)
    ensures var p1 := PlaceField(f, packed, p);
            var offset, bits := p1.offsets[|p.offsets|], p1.bits[|p.bits|];
            var at := 8 * offset + (if bits.Some? then bits.value.bitOffset else 0);
            && |p1.offsets| == |p.offsets| + 1 && |p1.bits| == |p.bits| + 1
            && p1.offsets[..|p.offsets|] == p.offsets && p1.bits[..|p.bits|] == p.bits
            && BeginsFirst(f, packed, p.offsetBits, at) && p1.offsetBits == at + BitCount(f) && PlacementIs(f, bits)
  {
    if f.bitWidth.None? { MemberFirst(f, packed, p); } else { BitFieldFirst(f, packed, p); }
    SignedIs(f.ty);
  }

  lemma MemberFirst(f: Field, packed: bool, p: Progress)
    requires FieldOk(f) && f.bitWidth.None?
    ensures var at := RoundUp(p.offsetBits, FieldAlign(f, packed) * 8);
            8 * (at / 8) == at && BeginsFirst(f, packed, p.offsetBits, at)
  {
    hide Pow2, IsPow2, AlignOf, SizeOf, RoundUp, FieldAlign;
    var a := FieldAlign(f, packed);
    FieldAlignIsPow2(f, packed);
    Pow2Positive(a);
    RoundUpIs(p.offsetBits, a * 8);
    BytesOf(RoundUp(p.offsetBits, a * 8), a);
    forall q: nat | p.offsetBits <= q < RoundUp(p.offsetBits, a * 8) ensures !MayBegin(f, packed, q) {
      NoneBetween(p.offsetBits, a * 8, q);
    }
  }

  lemma BitFieldFirst(f: Field, packed: bool, p: Progress)
    requires FieldOk(f) && f.bitWidth.Some? && f.bitWidth.value > 0
    ensures var unit, w := UnitBits(f.ty), f.bitWidth.value;
            var at := FieldStart(p, unit, w, packed);
            && 8 * (UnitStart(at, unit) / 8) == UnitStart(at, unit) && at - UnitStart(at, unit) < unit
            && BeginsFirst(f, packed, p.offsetBits, at)
  {
    hide Pow2, IsPow2, AlignOf, SizeOf, RoundUp;
    BitFieldUnit(f);
    var unit, w := UnitBits(f.ty), f.bitWidth.value;
    RoundUpIs(p.offsetBits, unit);
    var at := FieldStart(p, unit, w, packed);
    UnitAligned(at, unit, AlignOf(f.ty));
    forall q: nat | p.offsetBits <= q < at ensures !MayBegin(f, packed, q) {
      FurtherIn(p.offsetBits, unit, q);
    }
  }

  // ---------------------------------------------------------------- all members

  /** The first bit after member `i - 1` and all before it; one of width zero closes
      its unit. */
  function Free(def: RecordDef, p: Progress, i: nat): nat
    requires i <= |def.fields| && i <= |p.offsets| && i <= |p.bits|
  {
    if i == 0 then 0
    else if IsMember(def.fields[i - 1]) then Ends(def, p, i - 1)
    else RoundUp(Free(def, p, i - 1), UnitBits(def.fields[i - 1].ty))
  }

  lemma {:induction false} SameFree(def: RecordDef, p: Progress, p1: Progress, i: nat, n: nat)
    requires i <= n <= |def.fields| && n <= |p.offsets| && n <= |p.bits| && n <= |p1.offsets| && n <= |p1.bits|
    requires forall k :: 0 <= k < n ==> p.offsets[k] == p1.offsets[k] && p.bits[k] == p1.bits[k]
    ensures Free(def, p, i) == Free(def, p1, i)
  {
    hide BitCount, RoundUp;
    if i > 0 { SameFree(def, p, p1, i - 1, n); }
  }

  /** Every member begins at the first place after the one before it where it may:
      the layout leaves no bit unused that it could use. */
  lemma {:induction false} PackedTightly(def: RecordDef, n: nat)
    requires DefOk(def) && !def.isUnion && n <= |def.fields|
    ensures var p := Placed(def, n);
            && p.offsetBits == Free(def, p, n)
            && forall i: nat :: i < n && IsMember(def.fields[i]) ==> MemberFirstAt(def, p, i)
    decreases n
  {
    hide PlaceField, BitCount, RoundUp, FieldOk;
    if n > 0 {
      var f, p := def.fields[n - 1], Placed(def, n - 1);
      var p1 := PlaceField(f, def.packed, p);
      PackedTightly(def, n - 1);
      assert FieldOk(f);
      Extends(f, def.packed, p);
      forall k | 0 <= k < n - 1 ensures p.offsets[k] == p1.offsets[k] && p.bits[k] == p1.bits[k] {
        assert p1.offsets[..n - 1][k] == p.offsets[k] && p1.bits[..n - 1][k] == p.bits[k];
      }
      forall i: nat | i < n && IsMember(def.fields[i]) ensures MemberFirstAt(def, p1, i) {
        SameFree(def, p, p1, i, n - 1);
        if i < n - 1 { assert MemberFirstAt(def, p, i); } else { PlacedFirst(f, def.packed, p); }
      }
      SameFree(def, p, p1, n - 1, n - 1);
      if IsMember(f) { PlacedFirst(f, def.packed, p); }
    }
  }

  ghost predicate MemberFirstAt(def: RecordDef, p: Progress, i: nat)
    requires i < |def.fields| && i < |p.offsets| && i < |p.bits|
  {
    BeginsFirst(def.fields[i], def.packed, Free(def, p, i), Begins(p, i)) && PlacementIs(def.fields[i], p.bits[i])
  }

  lemma Extends(f: Field, packed: bool, p: Progress)
    ensures var p1 := PlaceField(f, packed, p);
            && |p1.offsets| == |p.offsets| + 1 && |p1.bits| == |p.bits| + 1
            && p1.offsets[..|p.offsets|] == p.offsets && p1.bits[..|p.bits|] == p.bits
            && (f.bitWidth == Some(0) ==> p1.offsetBits == RoundUp(p.offsetBits, UnitBits(f.ty)))
  {
    hide RoundUp, AlignOf, SizeOf, FieldAlign;
  }

  // --------------------------------------------------------- size and alignment

  /** What member `f` asks of the record's alignment. */
  function Asks(f: Field, packed: bool): nat {
    match f.bitWidth
    case None => FieldAlign(f, packed)
    case Some(w) => if w == 0 || packed then 1 else AlignOf(f.ty)
  }

  ghost predicate LargestAsked(def: RecordDef, n: nat, align: nat)
    requires n <= |def.fields|
  {
    && align >= 1
    && (forall i :: 0 <= i < n ==> Asks(def.fields[i], def.packed) <= align)
    && (align == 1 || exists i :: 0 <= i < n && Asks(def.fields[i], def.packed) == align)
  }

  lemma {:induction false} PlacedAsks(def: RecordDef, n: nat)
    requires n <= |def.fields|
    ensures LargestAsked(def, n, Placed(def, n).align)
    decreases n
  {
    hide RoundUp, AlignOf, SizeOf, FieldAlign, UnitBits;
    if n > 0 {
      PlacedAsks(def, n - 1);
      var p, f := Placed(def, n - 1), def.fields[n - 1];
      assert Placed(def, n).align == Max(p.align, Asks(f, def.packed));
      if p.align > 1 && p.align >= Asks(f, def.packed) {
        var i :| 0 <= i < n - 1 && Asks(def.fields[i], def.packed) == p.align;
      }
    }
  }

  /** The record's alignment is the largest that it or a member asks for. */
  lemma AlignIsLargest(def: RecordDef)
    ensures var align := RecordLayout(def).align;
            && (def.align.Some? ==> def.align.value <= align)
            && (forall i :: 0 <= i < |def.fields| ==> Asks(def.fields[i], def.packed) <= align)
            && (align == 1 || def.align == Some(align)
                || exists i :: 0 <= i < |def.fields| && Asks(def.fields[i], def.packed) == align)
  {
    hide Placed, Asks;
    PlacedAsks(def, |def.fields|);
  }

  /** The record ends at the first multiple of its alignment after its last member,
      and an empty one takes a byte. */
  lemma SizeIsLeast(def: RecordDef)
    requires DefOk(def) && !def.isUnion
    ensures var l, p := RecordLayout(def), Placed(def, |def.fields|); var end := Free(def, p, |def.fields|);
            && l.offsets == p.offsets && l.bits == p.bits
            && if end == 0 then l.size == 1 else l.size % l.align == 0 && end <= 8 * l.size < end + 8 * l.align
  {
    hide RoundUp, AlignOf, SizeOf, IsPow2, Placed, Free;
    var l, p := RecordLayout(def), Placed(def, |def.fields|);
    PackedTightly(def, |def.fields|);
    RecordAlign(def);
    RoundUpIs(p.offsetBits, l.align * 8);
    BytesOf(RoundUp(p.offsetBits, l.align * 8), l.align);
  }

  lemma {:induction false} UnionHolds(def: RecordDef, n: nat)
    requires def.isUnion && n <= |def.fields|
    ensures var size := Placed(def, n).offsetBits;
            && (forall i :: 0 <= i < n ==> SizeOf(def.fields[i].ty) <= size)
            && (size == 0 || exists i :: 0 <= i < n && SizeOf(def.fields[i].ty) == size)
    decreases n
  {
    hide AlignOf, SizeOf, FieldAlign, UnitBits;
    if n > 0 {
      UnionHolds(def, n - 1);
      var p, f := Placed(def, n - 1), def.fields[n - 1];
      assert Placed(def, n).offsetBits == Max(p.offsetBits, SizeOf(f.ty));
    }
  }

  /** A union's size is the first multiple of its alignment that its largest member
      fits in. */
  lemma UnionSizeIsLeast(def: RecordDef)
    requires DefOk(def) && def.isUnion && HasContent(def, |def.fields|)
    ensures var l := RecordLayout(def);
            && l.size % l.align == 0
            && (forall i :: 0 <= i < |def.fields| ==> SizeOf(def.fields[i].ty) <= l.size)
            && exists i :: 0 <= i < |def.fields| && l.size < SizeOf(def.fields[i].ty) + l.align
  {
    hide RoundUp, AlignOf, SizeOf, IsPow2, Placed;
    var l, p := RecordLayout(def), Placed(def, |def.fields|);
    UnionHolds(def, |def.fields|);
    RecordAlign(def);
    RoundUpIs(p.offsetBits, l.align);
    var i :| 0 <= i < |def.fields| && SizeOf(def.fields[i].ty) > 0;
    assert p.offsetBits > 0;
  }
}
