/** What the common type of two operands is, by the values the types hold. */
module CommonType {
  import opened Bits
  import opened Residues
  import opened ConstEval
  import opened FoldAgrees

  /** The bits that make up a value, the sign included. */
  ghost function Wide(t: IntTy): (n: nat)
    ensures n >= 1
  {
    match t
    case Bool => 1
    case Int(_, _, Some(n)) => n
    case Int(w, _, None) => w
  }

  ghost function Least(t: IntTy): int {
    if t.Int? && t.signed then 0 - Pow2(Wide(t) - 1) else 0
  }

  ghost function Greatest(t: IntTy): int {
    if t.Int? && t.signed then Pow2(Wide(t) - 1) - 1 else Pow2(Wide(t)) - 1
  }

  /** Every value of `u` is one of `t`. */
  ghost predicate Covers(t: IntTy, u: IntTy) {
    Least(t) <= Least(u) && Greatest(u) <= Greatest(t)
  }

  ghost predicate BitPrecise(t: IntTy) {
    t.Int? && t.bitint.Some?
  }

  lemma MoreBits(m: nat, n: nat)
    ensures Pow2(m) <= Pow2(n) <==> m <= n
    ensures Pow2(m) == Pow2(n) <==> m == n
  {
    if m < n { Pow2Grows(m, n); }
    if n < m { Pow2Grows(n, m); }
  }

  /** Covering, by signedness and bits. */
  lemma CoversBits(t: IntTy, u: IntTy)
    ensures IsSigned(t) == IsSigned(u) ==> (Covers(t, u) <==> Wide(u) <= Wide(t))
    ensures IsSigned(t) && !IsSigned(u) ==> (Covers(t, u) <==> Wide(u) < Wide(t))
    ensures !IsSigned(t) && IsSigned(u) ==> !Covers(t, u)
  {
    MoreBits(Wide(u), Wide(t));
    MoreBits(Wide(u) - 1, Wide(t) - 1);
    MoreBits(Wide(u), Wide(t) - 1);
  }

  /** Promotion keeps every value: a bit-precise type as it is, any other as `int` if
      that holds all its values, and as it is if not. */
  lemma PromoteIs(t: IntTy)
    requires TyOk(t)
    ensures Promote(t) == if !BitPrecise(t) && Covers(INT, t) then INT else t
    ensures Covers(Promote(t), t)
  {
    hide Pow2;
    CoversBits(INT, t);
    CoversBits(t, t);
  }

  /** Where one of the promoted types holds all values of the other, the common type is
      that one; otherwise it is unsigned, and as wide as the wider one. At equal widths
      it is bit-precise only if both are. */
  lemma CommonIs(a: IntTy, b: IntTy)
    requires TyOk(a) && TyOk(b)
    ensures var x, y, c := Promote(a), Promote(b), UsualArith(a, b);
            && (Covers(x, y) || Covers(y, x) ==> (c == x || c == y) && Covers(c, x) && Covers(c, y))
            && (!Covers(x, y) && !Covers(y, x) ==>
                  && c.Int? && !c.signed && Greatest(x) <= Greatest(c) && Greatest(y) <= Greatest(c)
                  && (Greatest(c) == Greatest(x) || Greatest(c) == Greatest(y)))
            && (BitPrecise(c) ==> (Wide(c) == Wide(x) ==> BitPrecise(x)) && (Wide(c) == Wide(y) ==> BitPrecise(y)))
            && TyOk(c)
  {
    hide Pow2, Promote, Covers;
    TypesOk(a, b);
    var x, y, c := Promote(a), Promote(b), UsualArith(a, b);
    CoversBits(x, y);
    CoversBits(y, x);
    CoversBits(c, x);
    CoversBits(c, y);
    GreatestBits(x, c);
    GreatestBits(y, c);
  }

  lemma GreatestBits(t: IntTy, c: IntTy)
    ensures !IsSigned(c) && Wide(t) <= Wide(c) ==> Greatest(t) <= Greatest(c)
    ensures !IsSigned(c) && !IsSigned(t) && Wide(t) == Wide(c) ==> Greatest(t) == Greatest(c)
  {
    MoreBits(Wide(t), Wide(c));
    MoreBits(Wide(t) - 1, Wide(c));
  }

  /** A constant of a type that another covers is one of that other, unchanged. */
  lemma CoveredKeeps(v: int, t: IntTy, c: IntTy)
    requires TyOk(t) && TyOk(c) && Normal(v, t) && Covers(c, t)
    ensures ReduceToType(v, c) == v && Normal(v, c)
  {
    hide Pow2, Norm;
    CoversBits(c, t);
    if IsSigned(t) || Wide(t) < 128 { NormalRange(v, t); }
    if IsSigned(c) || Wide(c) < 128 { NormalRange(v, c); }
    NormalHeld(v, t);
    ReduceNormal(v, c);
  }

  lemma NormalRange(v: int, t: IntTy)
    requires TyOk(t) && (IsSigned(t) || Wide(t) < 128)
    ensures Normal(v, t) <==> Least(t) <= v <= Greatest(t)
  {
    hide Pow2, Norm;
    DoubleIs(Wide(t));
    DoubleIs(1);
    PowZero();
  }

  lemma DoubleIs(n: nat)
    requires n > 0
    ensures Pow2(n) == 2 * Pow2(n - 1)
  { }

  lemma PowZero()
    ensures Pow2(0) == 1
  { }

  /** So an operand keeps its value in the common type wherever one of the promoted
      types holds all values of both. */
  lemma CommonKeeps(v: int, a: IntTy, b: IntTy)
    requires TyOk(a) && TyOk(b) && (Covers(Promote(a), Promote(b)) || Covers(Promote(b), Promote(a)))
    ensures Normal(v, a) ==> ReduceToType(v, UsualArith(a, b)) == v
    ensures Normal(v, b) ==> ReduceToType(v, UsualArith(a, b)) == v
  {
    hide Pow2, Norm, Promote, UsualArith, Covers, Normal;
    CommonIs(a, b);
    TypesOk(a, b);
    PromoteIs(a);
    PromoteIs(b);
    if Normal(v, a) {
      CoveredKeeps(v, a, Promote(a));
      CoveredKeeps(v, Promote(a), UsualArith(a, b));
    }
    if Normal(v, b) {
      CoveredKeeps(v, b, Promote(b));
      CoveredKeeps(v, Promote(b), UsualArith(a, b));
    }
  }
}
