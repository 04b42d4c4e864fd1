/**
 * Python's integer bit operations on unbounded two's-complement integers.
 *
 * The driver computes register bytes with `&`, `|`, `>>` and with `+` on
 * flags that occupy disjoint bits.  Dafny's `int` has no bitwise operators,
 * so they are defined here bit by bit, exactly as Python evaluates them
 * (floor division by two for negative operands), and related to the
 * arithmetic closed forms the rest of the model reasons with.
 */
module Bits {

  /** One octet on the bus. */
  type byte = x: int | 0 <= x < 256

  function Pow2(n: nat): (r: nat)
    ensures r >= 1
  {
    if n == 0 then 1 else 2 * Pow2(n - 1)
  }

  /** Python's `a & m` for a non-negative mask `m` (any sign of `a`). */
  function And(a: int, m: nat): (r: nat)
    ensures r <= m
    ensures 0 <= a ==> r <= a
    decreases m
  {
    if m == 0 then 0
    else 2 * And(a / 2, m / 2) + (if a % 2 == 1 && m % 2 == 1 then 1 else 0)
  }

  /** Python's `a | m` for a non-negative mask `m` (any sign of `a`). */
  function Or(a: int, m: nat): (r: int)
    ensures a <= r
    ensures 0 <= a ==> m <= r
    decreases m
  {
    if m == 0 then a
    else 2 * Or(a / 2, m / 2) + (if a % 2 == 1 || m % 2 == 1 then 1 else 0)
  }

  /** Python's arithmetic right shift `a >> n`: floor division by 2^n. */
  function Shr(a: int, n: nat): (r: int)
    ensures Pow2(n) * r <= a < Pow2(n) * r + Pow2(n)
  {
    a / Pow2(n)
  }

  /**
   * `a | m` and `a & m` together hold each bit of `a` and of `m` once:
   * `(a | m) + (a & m) == a + m`, for either sign of `a`.
   */
  lemma {:induction false} OrAndSum(a: int, m: nat)
    ensures Or(a, m) + And(a, m) == a + m
    decreases m
  {
    if m != 0 {
      OrAndSum(a / 2, m / 2);
    }
  }

  /** Euclidean division is unique: any quotient/remainder pair is the one Dafny computes. */
  lemma DivModUnique(a: int, d: int, q: int, r: int)
    requires d > 0 && a == d * q + r && 0 <= r < d
    ensures a / d == q && a % d == r
  {
    var q', r' := a / d, a % d;
    var k := q - q';
    assert d * k == r' - r;
    if k > 0 {
      MulAtLeast(d, k);
    } else if k < 0 {
      assert d * (-k) == -(d * k);
      MulAtLeast(d, -k);
    }
  }

  lemma MulAtLeast(d: int, k: int)
    requires d > 0 && k > 0
    ensures d * k >= d
  {
    assert d * k == d + d * (k - 1);
  }

  /** Rounding down to a multiple of `d` stays within `d` of the value. */
  lemma RoundDown(v: int, d: int)
    requires d > 0
    ensures (v / d * d) % d == 0
    ensures v - d < v / d * d <= v
  {
    DivModUnique(v / d * d, d, v / d, 0);
  }

  /** Forcing the low bits below `d` keeps a value within `d` above its rounded-down self. */
  lemma RoundUpWithin(v: int, d: int, low: int)
    requires d > 0 && 0 <= low < d
    ensures (v / d * d + low) % d == low
    ensures v / d * d <= v < v / d * d + d
  {
    DivModUnique(v / d * d + low, d, v / d, low);
  }

  /** A value already below the modulus is its own remainder. */
  lemma ModSmall(v: int, d: int)
    requires 0 <= v < d
    ensures v % d == v && v / d == 0
  {
    DivModUnique(v, d, 0, v);
  }

  /** Splitting off the lowest bit of a remainder by an even modulus. */
  lemma ModDouble(a: int, p: int)
    requires p > 0
    ensures a % (2 * p) == 2 * ((a / 2) % p) + a % 2
  {
    var h := a / 2;
    var t, s := h / p, h % p;
    assert a == 2 * h + a % 2;
    assert h == p * t + s;
    assert a == (2 * p) * t + (2 * s + a % 2);
    DivModUnique(a, 2 * p, t, 2 * s + a % 2);
  }

  /** An odd mask keeps the lowest bit and shifts the rest. */
  lemma AndOddMask(a: int, p: nat)
    requires p >= 1
    ensures And(a, 2 * p - 1) == 2 * And(a / 2, p - 1) + a % 2
  {
    var m := 2 * p - 1;
    assert m / 2 == p - 1 && m % 2 == 1;
  }

  /** An even mask ignores the lowest bit and shifts the rest. */
  lemma AndEvenMask(a: int, m: nat)
    ensures And(a, 2 * m) == 2 * And(a / 2, m)
  {
  }

  /**
   * One more low bit: if the mask `p - 1` keeps `a / 2` modulo `p`, the
   * mask `2p - 1` keeps `a` modulo `2p`.
   */
  lemma LowMaskStep(a: int, p: nat)
    requires p >= 1
    requires And(a / 2, p - 1) == (a / 2) % p
    ensures And(a, 2 * p - 1) == a % (2 * p)
  {
    AndOddMask(a, p);
    ModDouble(a, p);
  }

  /** `a & 0x1F` is `a` modulo 32, for either sign of `a`. */
  lemma And1F(a: int)
    ensures And(a, 0x1F) == a % 32
  {
    var a1 := a / 2;
    var a2 := a1 / 2;
    var a3 := a2 / 2;
    var a4 := a3 / 2;
    var a5 := a4 / 2;
    assert And(a5, 0) == a5 % 1;
    LowMaskStep(a4, 1);
    LowMaskStep(a3, 2);
    LowMaskStep(a2, 4);
    LowMaskStep(a1, 8);
    LowMaskStep(a, 16);
  }

  /** `a & 0xFF` is the low byte of `a`, for either sign of `a`. */
  lemma AndFF(a: int)
    ensures And(a, 0xFF) == a % 256
  {
    var a1 := a / 2;
    var a2 := a1 / 2;
    var a3 := a2 / 2;
    And1F(a3);
    LowMaskStep(a2, 32);
    LowMaskStep(a1, 64);
    LowMaskStep(a, 128);
  }

  /** `a & 0xF8` clears the low three bits of the low byte of `a`. */
  lemma AndF8(a: int)
    ensures And(a, 0xF8) == (a % 256) / 8 * 8
  {
    var a1 := a / 2;
    var a2 := a1 / 2;
    var a3 := a2 / 2;
    AndEvenMask(a, 0x7C);
    AndEvenMask(a1, 0x3E);
    AndEvenMask(a2, 0x1F);
    And1F(a3);
    ModDouble(a, 128);
    ModDouble(a1, 64);
    ModDouble(a2, 32);
    var low := 4 * (a2 % 2) + 2 * (a1 % 2) + a % 2;
    assert a % 256 == 8 * (a3 % 32) + low;
    DivModUnique(a % 256, 8, a3 % 32, low);
  }

  /** `a & 1` is the lowest bit of `a`. */
  lemma AndOne(a: int)
    ensures And(a, 1) == a % 2
  {
  }

  /** `a | 3` forces the two low bits. */
  lemma OrThree(a: int)
    ensures Or(a, 3) == a / 4 * 4 + 3
  {
    assert a / 2 / 2 == a / 4;
  }

  /** Setting a bit that is clear adds its weight: `a | 2^j == a + 2^j`. */
  lemma {:induction false} OrBit(a: int, j: nat)
    requires (a / Pow2(j)) % 2 == 0
    ensures Or(a, Pow2(j)) == a + Pow2(j)
    decreases j
  {
    if j > 0 {
      assert Pow2(j) / 2 == Pow2(j - 1);
      assert Pow2(j) % 2 == 0;
      assert a / 2 / Pow2(j - 1) == a / Pow2(j) by { DivHalf(a, Pow2(j - 1)); }
      OrBit(a / 2, j - 1);
    }
  }

  /** Halving, then dividing by `c`, is dividing by `2c`. */
  lemma DivHalf(a: int, c: int)
    requires c > 0
    ensures a / 2 / c == a / (2 * c)
  {
    var h := a / 2;
    var q, r := h / c, h % c;
    assert h == c * q + r;
    assert a == 2 * h + a % 2;
    var m := c * q;
    assert a == 2 * m + (2 * r + a % 2);
    assert 2 * m == (2 * c) * q;
    DivModUnique(a, 2 * c, q, 2 * r + a % 2);
  }
}
