/** Arithmetic modulo powers of two, and reading residues as signed numbers. */
module Residues {
  import opened Bits

  ghost predicate Congruent(x: int, y: int, n: nat) {
    x % Pow2(n) == y % Pow2(n)
  }

  lemma CongruentBy(x: int, y: int, n: nat, k: int)
    requires x == y + Pow2(n) * k
    ensures Congruent(x, y, n)
  {
    var m := Pow2(n);
    assert y == m * (y / m) + y % m;
    Factor(m, y / m, k);
    DivModUnique(x, m, y / m + k, y % m);
  }

  lemma Factor(m: int, a: int, b: int)
    ensures m * a + m * b == m * (a + b)
  { }

  lemma Quotient(x: int, y: int, n: nat) returns (k: int)
    requires Congruent(x, y, n)
    ensures x == y + Pow2(n) * k
  {
    var m := Pow2(n);
    k := x / m - y / m;
    assert x == m * (x / m) + x % m && y == m * (y / m) + y % m;
    Factor(m, y / m, k);
  }

  lemma CongruentMod(x: int, n: nat)
    ensures 0 <= x % Pow2(n) < Pow2(n) && Congruent(x % Pow2(n), x, n)
  {
    var m := Pow2(n);
    DivModUnique(x % m, m, 0, x % m);
  }

  lemma CongruentAdd(x: int, y: int, u: int, v: int, n: nat)
    requires Congruent(x, y, n) && Congruent(u, v, n)
    ensures Congruent(x + u, y + v, n) && Congruent(x - u, y - v, n)
  {
    var j := Quotient(x, y, n);
    var k := Quotient(u, v, n);
    Factor(Pow2(n), j, k);
    Factor(Pow2(n), j, -k);
    assert Pow2(n) * -k == -(Pow2(n) * k);
    CongruentBy(x + u, y + v, n, j + k);
    CongruentBy(x - u, y - v, n, j - k);
  }

  lemma CongruentMul(x: int, y: int, u: int, v: int, n: nat)
    requires Congruent(x, y, n) && Congruent(u, v, n)
    ensures Congruent(x * u, y * v, n)
  {
    var j := Quotient(x, y, n);
    var k := Quotient(u, v, n);
    Expand(y, v, Pow2(n), j, k);
    CongruentBy(x * u, y * v, n, y * k + j * v + Pow2(n) * j * k);
  }

  lemma Expand(y: int, v: int, m: int, j: int, k: int)
    ensures (y + m * j) * (v + m * k) == y * v + m * (y * k + j * v + m * j * k)
  {
    assert (y + m * j) * (v + m * k) == y * v + y * (m * k) + (m * j) * v + (m * j) * (m * k);
    assert y * (m * k) == m * (y * k) && (m * j) * v == m * (j * v) && (m * j) * (m * k) == m * (m * j * k);
    assert m * (y * k + j * v + m * j * k) == m * (y * k) + m * (j * v) + m * (m * j * k);
  }

  /** Congruence for more bits implies it for fewer. */
  lemma CongruentLess(x: int, y: int, k: nat, n: nat)
    requires Congruent(x, y, n) && k <= n
    ensures Congruent(x, y, k)
  {
    var q := Quotient(x, y, n);
    Pow2Adds(k, n - k);
    Assoc(Pow2(k), Pow2(n - k), q);
    CongruentBy(x, y, k, Pow2(n - k) * q);
  }

  lemma Assoc(a: int, b: int, c: int)
    ensures (a * b) * c == a * (b * c)
  { }

  /** The number in `n`-bit range with the residue of `v`. */
  function Norm(v: int, n: nat, signed: bool): (r: int)
  {
    var m := v % Pow2(n);
    if signed && 2 * m >= Pow2(n) then m - Pow2(n) else m
  }

  predicate InRange(v: int, n: nat, signed: bool) {
    if signed then 0 - Pow2(n) <= 2 * v < Pow2(n) else 0 <= v < Pow2(n)
  }

  lemma NormIs(v: int, n: nat, signed: bool)
    ensures InRange(Norm(v, n, signed), n, signed) && Congruent(Norm(v, n, signed), v, n)
  {
    CongruentMod(v, n);
    var m := v % Pow2(n);
    CongruentBy(m - Pow2(n), m, n, -1);
  }

  /** Two numbers in range with the same residue are equal. */
  lemma NormUnique(v: int, x: int, n: nat, signed: bool)
    requires InRange(v, n, signed) && Congruent(v, x, n)
    ensures Norm(x, n, signed) == v
  {
    NormIs(x, n, signed);
    var k := Quotient(Norm(x, n, signed), v, n);
    Multiples(Pow2(n), k);
  }

  lemma {:induction false} Pow2Grows(k: nat, n: nat)
    requires k <= n
    ensures Pow2(k) <= Pow2(n) && (k < n ==> 2 * Pow2(k) <= Pow2(n))
    decreases n
  {
    if k < n { Pow2Grows(k, n - 1); }
  }

  /** Narrow range lies in the wide one. */
  lemma RangeGrows(v: int, k: nat, n: nat, signed: bool)
    requires InRange(v, k, signed) && k <= n
    ensures InRange(v, n, signed)
    ensures k < n && !signed ==> InRange(v, n, true)
  {
    Pow2Grows(k, n);
  }

  // --------------------------------------------------------- bitwise operations

  datatype BitOp = AndOp | OrOp | XorOp

  function OneBit(op: BitOp, a: bool, b: bool): bool {
    match op case AndOp => a && b case OrOp => a || b case XorOp => a != b
  }

  /** `op` on the low `n` bits of `x` and `y`. */
  function Bitwise(op: BitOp, x: int, y: int, n: nat): (r: nat)
    ensures r < Pow2(n)
    decreases n
  {
    if n == 0 then 0
    else (if OneBit(op, x % 2 == 1, y % 2 == 1) then 1 else 0) + 2 * Bitwise(op, x / 2, y / 2, n - 1)
  }

  /** Bit `k` of a number in two's complement. */
  predicate BitAt(x: int, k: nat) {
    (x / Pow2(k)) % 2 == 1
  }

  /** Each bit of the result is that Boolean of the operands' bits, and there are no
      others. */
  lemma {:induction false} BitwiseBits(op: BitOp, x: int, y: int, n: nat, k: nat)
    ensures BitAt(Bitwise(op, x, y, n), k)
            <==> k < n && match op
                          case AndOp => BitAt(x, k) && BitAt(y, k)
                          case OrOp => BitAt(x, k) || BitAt(y, k)
                          case XorOp => (BitAt(x, k) && !BitAt(y, k)) || (!BitAt(x, k) && BitAt(y, k))
    decreases n
  {
    hide Bitwise, BitAt;
    if k >= n { NoBit(Bitwise(op, x, y, n), n, k); }
    else {
      BitwiseOnce(op, x, y, n);
      if k == 0 {
        LowBit(x);
        LowBit(y);
        LowBit(Bitwise(op, x, y, n));
      } else {
        BitwiseBits(op, x / 2, y / 2, n - 1, k - 1);
        NextBit(x, k);
        NextBit(y, k);
        NextBit(Bitwise(op, x, y, n), k);
      }
    }
  }

  lemma NoBit(r: nat, n: nat, k: nat)
    requires r < Pow2(n) && n <= k
    ensures !BitAt(r, k)
  {
    Pow2Grows(n, k);
    DivModUnique(r, Pow2(k), 0, r);
  }

  lemma LowBit(x: int)
    ensures BitAt(x, 0) <==> x % 2 == 1
  {
    assert x / 1 == x;
  }

  lemma BitwiseOnce(op: BitOp, x: int, y: int, n: nat)
    requires n > 0
    ensures var r := Bitwise(op, x, y, n);
            r / 2 == Bitwise(op, x / 2, y / 2, n - 1) && (r % 2 == 1 <==> OneBit(op, x % 2 == 1, y % 2 == 1))
  { }

  lemma NextBit(x: int, k: nat)
    requires k > 0
    ensures BitAt(x, k) <==> BitAt(x / 2, k - 1)
  {
    var m := Pow2(k - 1);
    var q, r := (x / 2) / m, (x / 2) % m;
    assert x / 2 == m * q + r;
    Assoc(2, m, q);
    DivModUnique(x, 2 * m, q, 2 * r + x % 2);
  }

  /** The low bits of the result are the result on the low bits. */
  lemma {:induction false} BitwiseLow(op: BitOp, x: int, y: int, k: nat, n: nat)
    requires k <= n
    ensures Bitwise(op, x, y, n) % Pow2(k) == Bitwise(op, x, y, k)
    decreases k
  {
    if k == 0 {
    } else {
      BitwiseLow(op, x / 2, y / 2, k - 1, n - 1);
      var bit := if OneBit(op, x % 2 == 1, y % 2 == 1) then 1 else 0;
      var rest := Bitwise(op, x / 2, y / 2, n - 1);
      LowBits(bit, rest, k);
    }
  }

  lemma LowBits(bit: nat, rest: nat, k: nat)
    requires bit <= 1 && k > 0
    ensures (bit + 2 * rest) % Pow2(k) == bit + 2 * (rest % Pow2(k - 1))
  {
    var m := Pow2(k - 1);
    assert rest == m * (rest / m) + rest % m;
    Assoc(2, m, rest / m);
    DivModUnique(bit + 2 * rest, 2 * m, rest / m, bit + 2 * (rest % m));
  }

  /** Only the residues of the operands matter. */
  lemma {:induction false} BitwiseResidues(op: BitOp, x: int, y: int, u: int, v: int, n: nat)
    requires Congruent(x, u, n) && Congruent(y, v, n)
    ensures Bitwise(op, x, y, n) == Bitwise(op, u, v, n)
    decreases n
  {
    if n > 0 {
      Halves(x, u, n);
      Halves(y, v, n);
      BitwiseResidues(op, x / 2, y / 2, u / 2, v / 2, n - 1);
    }
  }

  lemma Halves(x: int, u: int, n: nat)
    requires Congruent(x, u, n) && n > 0
    ensures x % 2 == u % 2 && Congruent(x / 2, u / 2, n - 1)
  {
    var k := Quotient(x, u, n);
    Assoc(2, Pow2(n - 1), k);
    CongruentBy(x / 2, u / 2, n - 1, k);
  }
}
