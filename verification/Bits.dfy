/** Machine words as bits, least significant first. */
module Bits {
  type Word = seq<bool>

  function Zeros(n: nat): (r: Word)
    ensures |r| == n
  {
    seq(n, _ => false)
  }

  function Shl(x: Word, k: nat): (r: Word)
    requires k <= |x|
    ensures |r| == |x|
  {
    Zeros(k) + x[..|x| - k]
  }

  function LShr(x: Word, k: nat): (r: Word)
    requires k <= |x|
    ensures |r| == |x|
  {
    x[k..] + Zeros(k)
  }

  function AShr(x: Word, k: nat): (r: Word)
    requires k <= |x| && x != []
    ensures |r| == |x|
  {
    x[k..] + seq(k, _ => x[|x| - 1])
  }

  function And(x: Word, y: Word): (r: Word)
    requires |x| == |y|
    ensures |r| == |x|
  {
    seq(|x|, i requires 0 <= i < |x| => x[i] && y[i])
  }

  function Or(x: Word, y: Word): (r: Word)
    requires |x| == |y|
    ensures |r| == |x|
  {
    seq(|x|, i requires 0 <= i < |x| => x[i] || y[i])
  }

  function Xor(x: Word, y: Word): (r: Word)
    requires |x| == |y|
    ensures |r| == |x|
  {
    seq(|x|, i requires 0 <= i < |x| => x[i] != y[i])
  }

  /** Widened to `n` bits with zeros, or with copies of the top bit. */
  function Extend(x: Word, signed: bool, n: nat): (r: Word)
    requires |x| <= n && (signed ==> x != [])
    ensures |r| == n
  {
    x + seq(n - |x|, _ => signed && x[|x| - 1])
  }

  /** Change the width of a value: extend as its signedness says, or truncate. */
  function Resize(x: Word, signed: bool, n: nat): (r: Word)
    requires signed ==> x != []
    ensures |r| == n
  {
    if n >= |x| then Extend(x, signed, n) else x[..n]
  }

  lemma ShlBit(x: Word, k: nat, i: nat)
    requires k <= |x| && i < |x|
    ensures Shl(x, k)[i] == (i >= k && x[i - k])
  { }

  lemma LShrBit(x: Word, k: nat, i: nat)
    requires k <= |x| && i < |x|
    ensures LShr(x, k)[i] == (i + k < |x| && x[i + k])
  { }

  lemma AShrBit(x: Word, k: nat, i: nat)
    requires k <= |x| && i < |x|
    ensures AShr(x, k)[i] == x[if i + k < |x| then i + k else |x| - 1]
  { }

  lemma ExtendedBit(x: Word, signed: bool, n: nat, i: nat)
    requires |x| <= n && (signed ==> x != []) && i < n
    ensures Extend(x, signed, n)[i] == if i < |x| then x[i] else signed && x[|x| - 1]
  { }

  lemma ResizedBit(x: Word, signed: bool, n: nat, i: nat)
    requires (signed ==> x != []) && i < n
    ensures Resize(x, signed, n)[i] == if i < |x| then x[i] else signed && x[|x| - 1]
  {
    if n >= |x| { ExtendedBit(x, signed, n, i); }
  }

  // -------------------------------------------------------------- as numbers

  function Pow2(n: nat): (r: nat)
    ensures r >= 1
  {
    if n == 0 then 1 else 2 * Pow2(n - 1)
  }

  function Unsigned(x: Word): (r: nat)
    ensures r < Pow2(|x|)
    decreases |x|
  {
    if x == [] then 0 else (if x[0] then 1 else 0) + 2 * Unsigned(x[1..])
  }

  /** Two's complement. */
  function Signed(x: Word): int {
    if x != [] && x[|x| - 1] then Unsigned(x) - Pow2(|x|) else Unsigned(x)
  }

  lemma {:induction false} Pow2Adds(m: nat, n: nat)
    ensures Pow2(m + n) == Pow2(m) * Pow2(n)
    decreases m
  {
    if m > 0 {
      Pow2Adds(m - 1, n);
      assert 2 * (Pow2(m - 1) * Pow2(n)) == (2 * Pow2(m - 1)) * Pow2(n);
    }
  }

  lemma {:induction false} UnsignedAppends(x: Word, y: Word)
    ensures Unsigned(x + y) == Unsigned(x) + Pow2(|x|) * Unsigned(y)
    decreases |x|
  {
    if x == [] {
      assert x + y == y;
    } else {
      UnsignedAppends(x[1..], y);
      AppendOnce(x, y);
    }
  }

  lemma AppendOnce(x: Word, y: Word)
    requires x != [] && Unsigned(x[1..] + y) == Unsigned(x[1..]) + Pow2(|x| - 1) * Unsigned(y)
    ensures Unsigned(x + y) == Unsigned(x) + Pow2(|x|) * Unsigned(y)
  {
    hide Unsigned, Pow2;
    assert (x + y)[1..] == x[1..] + y && (x + y)[0] == x[0];
    UnsignedIs(x);
    UnsignedIs(x + y);
    Pow2Is(|x|);
    Doubled(Pow2(|x| - 1), Unsigned(y));
  }

  lemma UnsignedIs(x: Word)
    requires x != []
    ensures Unsigned(x) == (if x[0] then 1 else 0) + 2 * Unsigned(x[1..])
  { }

  lemma Pow2Is(n: nat)
    requires n > 0
    ensures Pow2(n) == 2 * Pow2(n - 1)
  { }

  lemma Doubled(p: nat, u: nat)
    ensures (2 * p) * u == 2 * (p * u)
  { }

  /** Truncation is reduction modulo a power of two. */
  lemma TruncatedValue(x: Word, n: nat)
    requires n <= |x|
    ensures Unsigned(x[..n]) == Unsigned(x) % Pow2(n)
  {
    assert x == x[..n] + x[n..];
    UnsignedAppends(x[..n], x[n..]);
    ModSmall(Unsigned(x[..n]), Pow2(n), Unsigned(x[n..]));
  }

  lemma ModSmall(a: nat, m: nat, k: nat)
    requires a < m
    ensures (a + m * k) % m == a
  {
    DivModUnique(a + m * k, m, k, a);
  }

  lemma DivModUnique(x: int, m: int, q: int, r: int)
    requires 0 <= r < m && x == m * q + r
    ensures x % m == r && x / m == q
  {
    var d := q - x / m;
    assert m * d == x % m - r;
    Multiples(m, d);
  }

  lemma Multiples(m: int, d: int)
    requires m > 0
    ensures d >= 1 ==> m * d >= m
    ensures d <= -1 ==> m * d <= -m
  { }

  lemma {:induction false} ZerosValue(n: nat)
    ensures Unsigned(Zeros(n)) == 0
    decreases n
  {
    if n > 0 {
      assert Zeros(n)[1..] == Zeros(n - 1);
      ZerosValue(n - 1);
    }
  }

  lemma {:induction false} OnesValue(n: nat)
    ensures Unsigned(seq(n, _ => true)) == Pow2(n) - 1
    decreases n
  {
    if n > 0 {
      assert seq(n, _ => true)[1..] == seq(n - 1, _ => true);
      OnesValue(n - 1);
    }
  }

  /** Extension keeps the value: zeros the unsigned one, copies of the sign bit
      the signed one. */
  lemma ExtendedValue(x: Word, signed: bool, n: nat)
    requires |x| <= n && x != []
    ensures signed ==> Signed(Extend(x, true, n)) == Signed(x)
    ensures !signed ==> Unsigned(Extend(x, false, n)) == Unsigned(x)
  {
    if signed && x[|x| - 1] { OnesExtend(x, n - |x|); } else { ZerosExtend(x, signed, n - |x|); }
  }

  lemma ZerosExtend(x: Word, signed: bool, more: nat)
    requires x != [] && !(signed && x[|x| - 1])
    ensures Unsigned(Extend(x, signed, |x| + more)) == Unsigned(x)
    ensures signed ==> Signed(Extend(x, true, |x| + more)) == Signed(x)
  {
    hide Unsigned, Pow2;
    assert Extend(x, signed, |x| + more) == x + Zeros(more);
    UnsignedAppends(x, Zeros(more));
    ZerosValue(more);
  }

  lemma OnesExtend(x: Word, more: nat)
    requires x != [] && x[|x| - 1]
    ensures Signed(Extend(x, true, |x| + more)) == Signed(x)
  {
    hide Unsigned, Pow2;
    var ones: Word := seq(more, _ => true);
    assert Extend(x, true, |x| + more) == x + ones;
    UnsignedAppends(x, ones);
    OnesValue(more);
    Pow2Adds(|x|, more);
    Spread(Pow2(|x|), Pow2(more));
  }

  lemma Spread(p: nat, q: nat)
    requires q >= 1
    ensures p * (q - 1) == p * q - p
  { }
}
