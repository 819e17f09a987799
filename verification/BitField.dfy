/** Reading and writing a bit-field through its storage unit. */
module BitField {
  import opened Bits

  /** Where a bit-field lies: its unit's width, its lowest bit in the unit, its
      width, and how it is extended. */
  datatype BitPlacement = BitPlacement(unitBits: nat, bitOffset: nat, width: nat, signed: bool)

  /** A placement the layout gives: the field lies in a unit of a native width. */
  predicate PlacementOk(bp: BitPlacement) {
    && (bp.unitBits == 8 || bp.unitBits == 16 || bp.unitBits == 32 || bp.unitBits == 64)
    && bp.width >= 1 && bp.bitOffset + bp.width <= bp.unitBits
  }

  /** The width the mask and shifts are done in. */
  function WorkBits(unitBits: nat): (r: nat)
    ensures unitBits <= 64 ==> unitBits <= r
  {
    if unitBits <= 32 then 32 else 64
  }

  /** The constant with the low `width` bits set; all ones when the field is as
      wide as the work width. */
  function Mask(width: nat, work: nat): (r: Word)
    ensures |r| == work
  {
    if width >= work then seq(work, _ => true) else seq(width, _ => true) + Zeros(work - width)
  }

  /** The field in the unit: shifted to the top, then back down. */
  function ReadUnit(unit: Word, bp: BitPlacement): Word
    requires PlacementOk(bp) && |unit| == bp.unitBits
  {
    var w := WorkBits(bp.unitBits);
    var hi := Shl(Resize(unit, false, w), w - bp.bitOffset - bp.width);
    var down := w - bp.width;
    Resize(if bp.signed then AShr(hi, down) else LShr(hi, down), bp.signed, bp.unitBits)
  }

  /** The unit with the field replaced, and the value of the assignment. */
  function WriteUnit(unit: Word, bp: BitPlacement, value: Word): (Word, Word)
    requires PlacementOk(bp) && |unit| == |value| == bp.unitBits
  {
    var w := WorkBits(bp.unitBits);
    var old_ := Resize(unit, false, w);
    var mask := Mask(bp.width, w);
    var cleared := And(old_, Xor(Shl(mask, bp.bitOffset), seq(w, _ => true)));
    var low := And(Resize(value, false, w), mask);
    var new_ := Or(cleared, Shl(low, bp.bitOffset));
    var up := w - bp.width;
    var result := if bp.signed then AShr(Shl(low, up), up) else low;
    (Resize(new_, false, bp.unitBits), Resize(result, bp.signed, bp.unitBits))
  }

  /** The field's bits, widened to the declared type. */
  function Wrapped(bits: Word, bp: BitPlacement): (r: Word)
    requires PlacementOk(bp) && |bits| == bp.width
    ensures |r| == bp.unitBits
  {
    Extend(bits, bp.signed, bp.unitBits)
  }

  lemma ReadIs(unit: Word, bp: BitPlacement)
    requires PlacementOk(bp) && |unit| == bp.unitBits
    ensures ReadUnit(unit, bp) == Wrapped(unit[bp.bitOffset..bp.bitOffset + bp.width], bp)
  {
    var r, s := ReadUnit(unit, bp), Wrapped(unit[bp.bitOffset..bp.bitOffset + bp.width], bp);
    forall i: nat | i < bp.unitBits ensures r[i] == s[i] { ReadBit(unit, bp, i); }
  }

  lemma ReadBit(unit: Word, bp: BitPlacement, i: nat)
    requires PlacementOk(bp) && |unit| == bp.unitBits && i < bp.unitBits
    ensures ReadUnit(unit, bp)[i] == Wrapped(unit[bp.bitOffset..bp.bitOffset + bp.width], bp)[i]
  {
    hide Extend, Resize, Shl, LShr, AShr;
    var w := WorkBits(bp.unitBits);
    var raw := Resize(unit, false, w);
    var left, down := w - bp.bitOffset - bp.width, w - bp.width;
    var hi := Shl(raw, left);
    var ext := if bp.signed then AShr(hi, down) else LShr(hi, down);
    var field := unit[bp.bitOffset..bp.bitOffset + bp.width];
    assert ReadUnit(unit, bp) == Resize(ext, bp.signed, bp.unitBits);
    ResizedBit(ext, bp.signed, bp.unitBits, i);
    ExtendedBit(field, bp.signed, bp.unitBits, i);
    if bp.signed { AShrBit(hi, down, i); } else { LShrBit(hi, down, i); }
    var from := if i < bp.width then i else bp.width - 1;
    ShlBit(raw, left, from + down);
    ResizedBit(unit, false, w, from + bp.bitOffset);
  }

  /** Only the field's bits change, and the assignment's value is the field's. */
  lemma WriteIs(unit: Word, bp: BitPlacement, value: Word)
    requires PlacementOk(bp) && |unit| == |value| == bp.unitBits
    ensures var (new_, result) := WriteUnit(unit, bp, value);
            && new_ == unit[..bp.bitOffset] + value[..bp.width] + unit[bp.bitOffset + bp.width..]
            && result == Wrapped(value[..bp.width], bp)
  {
    WrittenUnit(unit, bp, value);
    WrittenValue(unit, bp, value);
  }

  lemma WrittenUnit(unit: Word, bp: BitPlacement, value: Word)
    requires PlacementOk(bp) && |unit| == |value| == bp.unitBits
    ensures WriteUnit(unit, bp, value).0 == unit[..bp.bitOffset] + value[..bp.width] + unit[bp.bitOffset + bp.width..]
  {
    var new_ := WriteUnit(unit, bp, value).0;
    var want := unit[..bp.bitOffset] + value[..bp.width] + unit[bp.bitOffset + bp.width..];
    assert |new_| == bp.unitBits;
    forall i: nat | i < bp.unitBits ensures new_[i] == want[i] { WrittenBit(unit, bp, value, i); }
  }

  lemma MaskBit(width: nat, work: nat, i: nat)
    requires i < work
    ensures Mask(width, work)[i] == (i < width)
  { }

  lemma WrittenBit(unit: Word, bp: BitPlacement, value: Word, i: nat)
    requires PlacementOk(bp) && |unit| == |value| == bp.unitBits && i < bp.unitBits
    ensures WriteUnit(unit, bp, value).0[i]
            == if bp.bitOffset <= i < bp.bitOffset + bp.width then value[i - bp.bitOffset] else unit[i]
  {
    hide Extend, Resize, Shl, Mask;
    var w := WorkBits(bp.unitBits);
    var mask := Mask(bp.width, w);
    var low := And(Resize(value, false, w), mask);
    var cleared := And(Resize(unit, false, w), Xor(Shl(mask, bp.bitOffset), seq(w, _ => true)));
    var new_ := Or(cleared, Shl(low, bp.bitOffset));
    ResizedBit(new_, false, bp.unitBits, i);
    ResizedBit(unit, false, w, i);
    ShlBit(mask, bp.bitOffset, i);
    ShlBit(low, bp.bitOffset, i);
    if i >= bp.bitOffset {
      MaskBit(bp.width, w, i - bp.bitOffset);
      ResizedBit(value, false, w, i - bp.bitOffset);
    }
  }

  lemma WrittenValue(unit: Word, bp: BitPlacement, value: Word)
    requires PlacementOk(bp) && |unit| == |value| == bp.unitBits
    ensures WriteUnit(unit, bp, value).1 == Wrapped(value[..bp.width], bp)
  {
    var result, want := WriteUnit(unit, bp, value).1, Wrapped(value[..bp.width], bp);
    forall i: nat | i < bp.unitBits ensures result[i] == want[i] { ResultBit(unit, bp, value, i); }
  }

  lemma ResultBit(unit: Word, bp: BitPlacement, value: Word, i: nat)
    requires PlacementOk(bp) && |unit| == |value| == bp.unitBits && i < bp.unitBits
    ensures WriteUnit(unit, bp, value).1[i] == Wrapped(value[..bp.width], bp)[i]
  {
    hide Extend, Resize, Shl, AShr, Mask;
    var w := WorkBits(bp.unitBits);
    var low := And(Resize(value, false, w), Mask(bp.width, w));
    var up := w - bp.width;
    var hi := Shl(low, up);
    var wide := if bp.signed then AShr(hi, up) else low;
    assert WriteUnit(unit, bp, value).1 == Resize(wide, bp.signed, bp.unitBits);
    ResizedBit(wide, bp.signed, bp.unitBits, i);
    ExtendedBit(value[..bp.width], bp.signed, bp.unitBits, i);
    var from := if bp.signed && i >= bp.width then bp.width - 1 else i;
    if bp.signed {
      AShrBit(hi, up, i);
      ShlBit(low, up, from + up);
    }
    MaskBit(bp.width, w, from);
    ResizedBit(value, false, w, from);
  }

  // ------------------------------------------------------------------ memory

  /** Storage, as the bits of its bytes in order (the machine is little-endian). */
  type Memory = Word

  function Load(mem: Memory, offset: nat, bits: nat): (r: Word)
    requires 8 * offset + bits <= |mem|
    ensures |r| == bits
  {
    mem[8 * offset..8 * offset + bits]
  }

  function Store(mem: Memory, offset: nat, value: Word): (r: Memory)
    requires 8 * offset + |value| <= |mem|
    ensures |r| == |mem|
  {
    mem[..8 * offset] + value + mem[8 * offset + |value|..]
  }

  predicate InBounds(mem: Memory, offset: nat, bp: BitPlacement) {
    8 * offset + bp.unitBits <= |mem|
  }

  function ReadAt(mem: Memory, offset: nat, bp: BitPlacement): Word
    requires PlacementOk(bp) && InBounds(mem, offset, bp)
  {
    ReadUnit(Load(mem, offset, bp.unitBits), bp)
  }

  function WriteAt(mem: Memory, offset: nat, bp: BitPlacement, value: Word): (Memory, Word)
    requires PlacementOk(bp) && InBounds(mem, offset, bp) && |value| == bp.unitBits
  {
    WriteUnitLength(Load(mem, offset, bp.unitBits), bp, value);
    var (unit, result) := WriteUnit(Load(mem, offset, bp.unitBits), bp, value);
    (Store(mem, offset, unit), result)
  }

  lemma WriteUnitLength(unit: Word, bp: BitPlacement, value: Word)
    requires PlacementOk(bp) && |unit| == |value| == bp.unitBits
    ensures |WriteUnit(unit, bp, value).0| == bp.unitBits
  { }

  /** The field's first bit in memory. */
  function Start(offset: nat, bp: BitPlacement): nat {
    8 * offset + bp.bitOffset
  }

  /** A read sees the field's bits of memory. */
  lemma ReadAtIs(mem: Memory, offset: nat, bp: BitPlacement)
    requires PlacementOk(bp) && InBounds(mem, offset, bp)
    ensures ReadAt(mem, offset, bp) == Wrapped(mem[Start(offset, bp)..Start(offset, bp) + bp.width], bp)
  {
    hide ReadUnit, Wrapped;
    var unit := Load(mem, offset, bp.unitBits);
    ReadIs(unit, bp);
    SliceOfSlice(mem, 8 * offset, bp.unitBits, bp.bitOffset, bp.bitOffset + bp.width);
  }

  lemma SliceOfSlice(mem: Memory, lo: nat, n: nat, a: nat, b: nat)
    requires lo + n <= |mem| && a <= b <= n
    ensures mem[lo..lo + n][a..b] == mem[lo + a..lo + b]
  {
    var inner, outer := mem[lo..lo + n][a..b], mem[lo + a..lo + b];
    assert forall i :: 0 <= i < b - a ==> inner[i] == mem[lo..lo + n][a + i];
    assert forall i :: 0 <= i < b - a ==> outer[i] == mem[lo + a + i];
  }

  /** A write changes the field's bits of memory and no others; its value is the
      written value cut to the field's width and widened again. */
  lemma WriteAtIs(mem: Memory, offset: nat, bp: BitPlacement, value: Word)
    requires PlacementOk(bp) && InBounds(mem, offset, bp) && |value| == bp.unitBits
    ensures var (mem', result) := WriteAt(mem, offset, bp, value);
            && |mem'| == |mem|
            && (forall i :: 0 <= i < |mem| ==>
                  mem'[i] == if Start(offset, bp) <= i < Start(offset, bp) + bp.width then value[i - Start(offset, bp)] else mem[i])
            && result == Wrapped(value[..bp.width], bp)
  {
    hide WriteUnit;
    var unit := Load(mem, offset, bp.unitBits);
    WriteIs(unit, bp, value);
    var new_ := WriteUnit(unit, bp, value).0;
    var mem' := WriteAt(mem, offset, bp, value).0;
    var lo := 8 * offset;
    assert |new_| == bp.unitBits && mem' == mem[..lo] + new_ + mem[lo + bp.unitBits..];
    forall i | 0 <= i < |mem|
      ensures mem'[i] == if Start(offset, bp) <= i < Start(offset, bp) + bp.width then value[i - Start(offset, bp)] else mem[i]
    {
      SplicedAt(mem, lo, new_, i);
      if lo <= i < lo + bp.unitBits { WrittenAt(unit, bp, value, i - lo); }
    }
  }

  /** What stands at `i` once `part` was put at `lo`. */
  lemma SplicedAt(mem: Word, lo: nat, part: Word, i: nat)
    requires lo + |part| <= |mem| && i < |mem|
    ensures (mem[..lo] + part + mem[lo + |part|..])[i] == if lo <= i < lo + |part| then part[i - lo] else mem[i]
  { }

  lemma WrittenAt(unit: Word, bp: BitPlacement, value: Word, i: nat)
    requires PlacementOk(bp) && |unit| == |value| == bp.unitBits && i < bp.unitBits
    ensures |WriteUnit(unit, bp, value).0| == bp.unitBits
    ensures WriteUnit(unit, bp, value).0[i]
            == if bp.bitOffset <= i < bp.bitOffset + bp.width then value[i - bp.bitOffset] else unit[i]
  {
    hide WriteUnit;
    WriteIs(unit, bp, value);
    var at, w := bp.bitOffset, bp.width;
    assert unit[..at] + value[..w] + unit[at + w..] == unit[..at] + (value[..w] + unit[at + w..]);
  }

  /** Writing then reading gives what the write returned. */
  lemma WriteThenRead(mem: Memory, offset: nat, bp: BitPlacement, value: Word)
    requires PlacementOk(bp) && InBounds(mem, offset, bp) && |value| == bp.unitBits
    ensures var (mem', result) := WriteAt(mem, offset, bp, value);
            && |mem'| == |mem| && ReadAt(mem', offset, bp) == result == Wrapped(value[..bp.width], bp)
  {
    hide ReadAt, WriteAt, Wrapped;
    WriteAtIs(mem, offset, bp, value);
    var mem' := WriteAt(mem, offset, bp, value).0;
    ReadAtIs(mem', offset, bp);
    SliceIs(mem', Start(offset, bp), bp.width, value);
  }

  lemma SliceIs(mem: Memory, lo: nat, n: nat, value: Word)
    requires lo + n <= |mem| && n <= |value|
    requires forall i :: lo <= i < lo + n ==> mem[i] == value[i - lo]
    ensures mem[lo..lo + n] == value[..n]
  { }

  /** As numbers: an unsigned field holds the value modulo a power of two, a
      signed one the number with the same remainder in its range. */
  lemma WrittenNumber(mem: Memory, offset: nat, bp: BitPlacement, value: Word)
    requires PlacementOk(bp) && InBounds(mem, offset, bp) && |value| == bp.unitBits
    ensures var result := WriteAt(mem, offset, bp, value).1;
            var residue := Unsigned(value) % Pow2(bp.width);
            if bp.signed then Signed(result) == if 2 * residue < Pow2(bp.width) then residue else residue - Pow2(bp.width)
            else Unsigned(result) == residue
  {
    WriteAtIs(mem, offset, bp, value);
    TruncatedValue(value, bp.width);
    var low := value[..bp.width];
    ExtendedValue(low, bp.signed, bp.unitBits);
    TopBit(low);
  }

  lemma TopBit(x: Word)
    requires x != []
    ensures x[|x| - 1] <==> 2 * Unsigned(x) >= Pow2(|x|)
  {
    hide Unsigned;
    var m := |x| - 1;
    assert x == x[..m] + [x[m]];
    UnsignedAppends(x[..m], [x[m]]);
    OneBitIs(x[m]);
  }

  lemma OneBitIs(bit: bool)
    ensures Unsigned([bit]) == if bit then 1 else 0
  {
    assert [bit][1..] == [];
  }
}
