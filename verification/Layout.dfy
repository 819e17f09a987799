/** Sizes, alignments and member placement of C types. */
module Layout {
  import opened Wrappers
  import opened Bits
  import opened BitField

  /** Types, with record definitions in place of indices into the registry. */
  datatype CType =
    | Void
    | Bool
    | Int(width: Width, signed: bool)
    | Float(kind: FloatKind)
    | Pointer
    | Array(elem: CType, count: nat)
    | Record(def: RecordDef)
    | Func
    | Vector(lane: CType, lanes: nat)
    | Qual(inner: CType)

  type Width = w: nat | w == 8 || w == 16 || w == 32 || w == 64 || w == 128 witness 8
  datatype FloatKind = F32 | F64 | F128 | C32 | C64 | C128

  function FloatBits(k: FloatKind): nat {
    match k case F32 => 32 case F64 => 64 case F128 => 128 case C32 => 64 case C64 => 128 case C128 => 256
  }

  /** A complex type aligns like its parts. */
  function FloatAlign(k: FloatKind): nat {
    match k case F32 => 4 case F64 => 8 case F128 => 16 case C32 => 4 case C64 => 8 case C128 => 16
  }

  datatype RecordDef = RecordDef(isUnion: bool, fields: seq<Field>, packed: bool, align: Option<nat>)
  datatype Field = Field(name: string, ty: CType, anonymous: bool, align: Option<nat>, bitWidth: Option<nat>)

  function Max(a: nat, b: nat): nat {
    if a >= b then a else b
  }

  /** `value` raised to the next multiple of `align`. */
  function RoundUp(value: nat, align: nat): (r: nat)
    ensures r >= value
  {
    var a := Max(align, 1);
    RoundsUp(value, a);
    (value + a - 1) / a * a
  }

  lemma RoundsUp(value: nat, a: nat)
    requires a >= 1
    ensures value <= (value + a - 1) / a * a < value + a
  { }

  function Unqualified(ty: CType): (r: CType)
    ensures !r.Qual?
  {
    if ty.Qual? then Unqualified(ty.inner) else ty
  }

  /** The smallest power of two at or above `n`. */
  function NextPowerOfTwo(n: nat): nat {
    PowerFrom(n, 0)
  }

  function PowerFrom(n: nat, k: nat): (r: nat)
    requires k <= n
    ensures exists j: nat :: r == Pow2(j)
    decreases n - k
  {
    if Pow2(k) >= n || k == n then Pow2(k) else PowerFrom(n, k + 1)
  }

  /** The storage unit of a bit-field of declared type `ty`, in bits. */
  function UnitBits(ty: CType): (r: nat)
    ensures r >= 8
  {
    match Unqualified(ty)
    case Bool => 8
    case Int(width, _) => width
    case _ => 32
  }

  predicate IsSigned(ty: CType) {
    var t := Unqualified(ty); t.Int? && t.signed
  }

  // ------------------------------------------------------- sizes and layouts

  function SizeOf(ty: CType): nat
    decreases ty, 0
  {
    match ty
    case Qual(inner) => SizeOf(inner)
    case Void => 1
    case Bool => 1
    case Int(width, _) => width / 8
    case Float(k) => FloatBits(k) / 8
    case Pointer => 8
    case Array(elem, n) => RoundUp(SizeOf(elem), AlignOf(elem)) * n
    case Record(def) => RecordLayout(def).size
    case Func => 1
    case Vector(lane, n) => SizeOf(lane) * n
  }

  function AlignOf(ty: CType): nat
    decreases ty, 1
  {
    match ty
    case Qual(inner) => AlignOf(inner)
    case Void => 1
    case Bool => 1
    case Int(width, _) => if width / 8 < 1 then 1 else if width / 8 > 16 then 16 else width / 8
    case Float(k) => FloatAlign(k)
    case Pointer => 8
    case Array(elem, _) => AlignOf(elem)
    case Record(def) => RecordLayout(def).align
    case Func => 1
    case Vector(_, _) => NextPowerOfTwo(SizeOf(ty))
  }

  /** A member's own alignment; packing drops the natural one, an explicit one
      still raises it. */
  function FieldAlign(f: Field, packed: bool): nat
    decreases f, 0
  {
    var natural := if packed then 1 else AlignOf(f.ty);
    match f.align
    case Some(a) => Max(natural, a)
    case None => natural
  }

  /** Members placed so far: the running offset in bits, the alignment, and each
      member's byte offset and bit placement. */
  datatype Progress = Progress(offsetBits: nat, align: nat, offsets: seq<nat>, bits: seq<Option<BitPlacement>>)

  /** Where a bit-field of width `w` goes: at the running offset, or at the next
      unit boundary if it would straddle one. */
  function FieldStart(p: Progress, unit: nat, w: nat, packed: bool): (r: nat)
    requires unit > 0
    ensures r >= p.offsetBits
  {
    if !packed && p.offsetBits % unit + w > unit then RoundUp(p.offsetBits, unit) else p.offsetBits
  }

  /** The beginning of the unit that bit `at` is in. */
  function UnitStart(at: nat, unit: nat): (r: nat)
    requires unit > 0
    ensures r <= at < r + unit && r == at - at % unit
  {
    at / unit * unit
  }

  function PlaceField(f: Field, packed: bool, p: Progress): Progress
    decreases f, 1
  {
    var unit := UnitBits(f.ty);
    match f.bitWidth
    case Some(w) =>
      if w == 0 then Progress(RoundUp(p.offsetBits, unit), p.align, p.offsets + [0], p.bits + [None])
      else
        var at := FieldStart(p, unit, w, packed);
        var unitStart := UnitStart(at, unit);
        Progress(at + w, if packed then p.align else Max(p.align, AlignOf(f.ty)), p.offsets + [unitStart / 8],
                 p.bits + [Some(BitPlacement(unit, at - unitStart, w, IsSigned(f.ty)))])
    case None =>
      var a := FieldAlign(f, packed);
      var at := RoundUp(p.offsetBits, a * 8);
      Progress(at + SizeOf(f.ty) * 8, Max(p.align, a), p.offsets + [at / 8], p.bits + [None])
  }

  /** The members of a union all lie at its beginning. */
  function OverlayField(f: Field, packed: bool, p: Progress): Progress
    decreases f, 1
  {
    match f.bitWidth
    case Some(w) =>
      if w == 0 then Progress(Max(p.offsetBits, SizeOf(f.ty)), p.align, p.offsets + [0], p.bits + [None])
      else Progress(Max(p.offsetBits, SizeOf(f.ty)), if packed then p.align else Max(p.align, AlignOf(f.ty)),
                    p.offsets + [0], p.bits + [Some(BitPlacement(UnitBits(f.ty), 0, w, IsSigned(f.ty)))])
    case None =>
      Progress(Max(p.offsetBits, SizeOf(f.ty)), Max(p.align, FieldAlign(f, packed)), p.offsets + [0], p.bits + [None])
  }

  /** The first `n` members placed. */
  function Placed(def: RecordDef, n: nat): (p: Progress)
    requires n <= |def.fields|
    ensures |p.offsets| == |p.bits| == n
    decreases def, n
  {
    if n == 0 then Progress(0, 1, [], [])
    else
      var p := Placed(def, n - 1);
      var f := def.fields[n - 1];
      if def.isUnion then OverlayField(f, def.packed, p) else PlaceField(f, def.packed, p)
  }

  datatype Laid = Laid(offsets: seq<nat>, bits: seq<Option<BitPlacement>>, size: nat, align: nat)

  /** The offset counts bits in a struct and bytes in a union; a record is never
      empty. */
  function Finished(def: RecordDef, p: Progress): Laid {
    var align := Max(if def.align.Some? then Max(p.align, def.align.value) else p.align, 1);
    var size := if def.isUnion then RoundUp(p.offsetBits, align) else RoundUp(p.offsetBits, align * 8) / 8;
    Laid(p.offsets, p.bits, Max(size, 1), align)
  }

  function RecordLayout(def: RecordDef): (l: Laid)
    ensures |l.offsets| == |l.bits| == |def.fields|
    decreases def, |def.fields| + 1
  {
    Finished(def, Placed(def, |def.fields|))
  }

  /** The layout computed member by member. */
  method ComputeLayout(def: RecordDef) returns (l: Laid)
    ensures l == RecordLayout(def)
  {
    hide RoundUp, SizeOf, AlignOf, FieldAlign, UnitBits, UnitStart;
    var offsetBits: nat, align: nat := 0, 1;
    var offsets: seq<nat>, bits: seq<Option<BitPlacement>> := [], [];
    for i := 0 to |def.fields|
      invariant Progress(offsetBits, align, offsets, bits) == Placed(def, i)
    {
      var f := def.fields[i];
      var unit := UnitBits(f.ty);
      if def.isUnion {
        var bp: Option<BitPlacement> := None;
        if f.bitWidth.Some? {
          if f.bitWidth.value > 0 {
            bp := Some(BitPlacement(unit, 0, f.bitWidth.value, IsSigned(f.ty)));
            if !def.packed { align := Max(align, AlignOf(f.ty)); }
          }
        } else {
          align := Max(align, FieldAlign(f, def.packed));
        }
        offsets, bits := offsets + [0], bits + [bp];
        offsetBits := Max(offsetBits, SizeOf(f.ty));
      } else if f.bitWidth == Some(0) {
        offsetBits := RoundUp(offsetBits, unit);
        offsets, bits := offsets + [0], bits + [None];
      } else if f.bitWidth.Some? {
        var w := f.bitWidth.value;
        if !def.packed && offsetBits % unit + w > unit { offsetBits := RoundUp(offsetBits, unit); }
        var unitStart := UnitStart(offsetBits, unit);
        offsets := offsets + [unitStart / 8];
        bits := bits + [Some(BitPlacement(unit, offsetBits - unitStart, w, IsSigned(f.ty)))];
        if !def.packed { align := Max(align, AlignOf(f.ty)); }
        offsetBits := offsetBits + w;
      } else {
        var a := FieldAlign(f, def.packed);
        align := Max(align, a);
        offsetBits := RoundUp(offsetBits, a * 8);
        offsets, bits := offsets + [offsetBits / 8], bits + [None];
        offsetBits := offsetBits + SizeOf(f.ty) * 8;
      }
    }
    l := Finished(def, Progress(offsetBits, align, offsets, bits));
  }
}
