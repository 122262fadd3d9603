/**
 * The parts of JavaScript number semantics the charm selector relies on:
 * ToInt32 (the conversion every bitwise operator applies), `<<`, `&` and
 * `Math.abs`. Numbers are modelled as mathematical integers; every value the
 * selector produces is an integer far below 2^53, so double precision never
 * rounds and the integer model is exact.
 */
module JsInt32 {

  const TwoTo32: int := 0x1_0000_0000
  const MinInt32: int := -0x8000_0000
  const MaxInt32: int := 0x7FFF_FFFF

  predicate IsInt32(x: int) {
    MinInt32 <= x <= MaxInt32
  }

  /** `a` and `b` agree modulo 2^32. */
  predicate Congruent(a: int, b: int) {
    (a - b) % TwoTo32 == 0
  }

  /** Congruence modulo 2^32, by its witness: the difference is a multiple of 2^32. */
  lemma CongruentByMultiple(a: int, b: int, q: int)
    requires a - b == TwoTo32 * q
    ensures Congruent(a, b)
  {
  }

  lemma CongruentSymmetric(a: int, b: int)
    requires Congruent(a, b)
    ensures Congruent(b, a)
  {
    CongruentByMultiple(b, a, -((a - b) / TwoTo32));
  }

  lemma CongruentTransitive(a: int, b: int, c: int)
    requires Congruent(a, b) && Congruent(b, c)
    ensures Congruent(a, c)
  {
    CongruentByMultiple(a, c, (a - b) / TwoTo32 + (b - c) / TwoTo32);
  }

  /** Congruence survives multiplying both sides by `k` and adding `d` to both. */
  lemma CongruentAffine(k: int, d: int, a: int, b: int)
    requires Congruent(a, b)
    ensures Congruent(k * a + d, k * b + d)
  {
    var q := (a - b) / TwoTo32;
    assert a - b == TwoTo32 * q;
    calc {
      (k * a + d) - (k * b + d);
      k * (a - b);
      k * (TwoTo32 * q);
      TwoTo32 * (k * q);
    }
    CongruentByMultiple(k * a + d, k * b + d, k * q);
  }

  /** ECMAScript ToInt32 on an integral Number: wrap modulo 2^32 into the signed range. */
  function ToInt32(x: int): (r: int)
    ensures IsInt32(r)
    ensures Congruent(x, r)
  {
    var m := x % TwoTo32;
    if m > MaxInt32 then m - TwoTo32 else m
  }

  /** ToInt32 yields the one signed 32-bit integer congruent to its argument. */
  lemma ToInt32Unique(x: int, r: int)
    requires IsInt32(r) && Congruent(x, r)
    ensures ToInt32(x) == r
  {
    var t := ToInt32(x);
    CongruentSymmetric(x, t);
    CongruentTransitive(t, x, r);
    var q := (t - r) / TwoTo32;
    assert t - r == TwoTo32 * q;
  }

  /** Congruent arguments have the same ToInt32. */
  lemma ToInt32Congruent(x: int, y: int)
    requires Congruent(x, y)
    ensures ToInt32(x) == ToInt32(y)
  {
    CongruentTransitive(x, y, ToInt32(y));
    ToInt32Unique(x, ToInt32(y));
  }

  function Pow2(n: nat): (r: nat)
    ensures r > 0
  {
    if n == 0 then 1 else 2 * Pow2(n - 1)
  }

  /** JavaScript `x << count`: ToInt32(x) shifted by `count` mod 32 bits, wrapped to 32 bits. */
  function ShiftLeft(x: int, count: int): (r: int)
    ensures IsInt32(r)
  {
    ToInt32(ToInt32(x) * Pow2(count % 32))
  }

  /** Shifting left by `count` is multiplication by 2^(count mod 32), modulo 2^32. */
  lemma ShiftLeftIsMultiplication(x: int, count: int)
    ensures Congruent(ShiftLeft(x, count), x * Pow2(count % 32))
  {
    var p, t := Pow2(count % 32), ToInt32(x);
    CongruentSymmetric(t * p, ShiftLeft(x, count));
    CongruentSymmetric(x, t);
    CongruentAffine(p, 0, t, x);
    assert Congruent(t * p, x * p);
    CongruentTransitive(ShiftLeft(x, count), t * p, x * p);
  }

  /** ECMAScript ToUint32 on an integral Number. */
  function ToUint32(x: int): (r: int)
    ensures 0 <= r < TwoTo32
    ensures Congruent(x, r)
  {
    x % TwoTo32
  }

  /** The signed 32-bit integer whose bit pattern is the unsigned value `u`. */
  function FromUint32(u: int): (r: int)
    requires 0 <= u < TwoTo32
    ensures IsInt32(r)
    ensures Congruent(u, r)
  {
    if u > MaxInt32 then u - TwoTo32 else u
  }

  /** Bitwise and of the low `width` bits of two non-negative integers, one bit at a time. */
  function AndBits(a: nat, b: nat, width: nat): (r: nat)
    ensures r < Pow2(width)
  {
    if width == 0 then 0
    else 2 * AndBits(a / 2, b / 2, width - 1) + (if a % 2 == 1 && b % 2 == 1 then 1 else 0)
  }

  /** And-ing a `width`-bit value with itself gives the value back. */
  lemma {:induction false} AndBitsSelf(a: nat, width: nat)
    requires a < Pow2(width)
    ensures AndBits(a, a, width) == a
  {
    if width > 0 {
      AndBitsSelf(a / 2, width - 1);
    }
  }

  lemma Pow2Of32()
    ensures Pow2(32) == TwoTo32
  {
    assert Pow2(1) == 2;
    assert Pow2(2) == 4;
    assert Pow2(3) == 8;
    assert Pow2(4) == 16;
    assert Pow2(5) == 32;
    assert Pow2(6) == 64;
    assert Pow2(7) == 128;
    assert Pow2(8) == 0x100;
    assert Pow2(9) == 0x200;
    assert Pow2(10) == 0x400;
    assert Pow2(11) == 0x800;
    assert Pow2(12) == 0x1000;
    assert Pow2(13) == 0x2000;
    assert Pow2(14) == 0x4000;
    assert Pow2(15) == 0x8000;
    assert Pow2(16) == 0x1_0000;
    assert Pow2(17) == 0x2_0000;
    assert Pow2(18) == 0x4_0000;
    assert Pow2(19) == 0x8_0000;
    assert Pow2(20) == 0x10_0000;
    assert Pow2(21) == 0x20_0000;
    assert Pow2(22) == 0x40_0000;
    assert Pow2(23) == 0x80_0000;
    assert Pow2(24) == 0x100_0000;
    assert Pow2(25) == 0x200_0000;
    assert Pow2(26) == 0x400_0000;
    assert Pow2(27) == 0x800_0000;
    assert Pow2(28) == 0x1000_0000;
    assert Pow2(29) == 0x2000_0000;
    assert Pow2(30) == 0x4000_0000;
    assert Pow2(31) == 0x8000_0000;
  }

  /** JavaScript `x & y`: bitwise and of the two 32-bit patterns, read back as signed. */
  function BitAnd(x: int, y: int): (r: int)
    ensures IsInt32(r)
  {
    Pow2Of32();
    FromUint32(AndBits(ToUint32(x), ToUint32(y), 32))
  }

  /** `x & x` is exactly ToInt32(x): the idiom that truncates a Number to 32 bits. */
  lemma BitAndSelf(x: int)
    ensures BitAnd(x, x) == ToInt32(x)
  {
    Pow2Of32();
    AndBitsSelf(ToUint32(x), 32);
  }

  /** `Math.abs` on a Number; it cannot overflow, so Abs(MinInt32) is 2^31. */
  function Abs(x: int): (r: int)
    ensures r >= 0
    ensures r == x || r == -x
  {
    if x < 0 then -x else x
  }
}
