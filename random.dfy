/** `rand(a, b)` of lib/utils/random.utils.ts: one unsigned 32-bit word from
    the platform's cryptographic generator, scaled and floored into a range.
    The word is a parameter of every function here. */
module Random {

  const TWO_POW_32: int := 0x1_0000_0000

  /** The values a `Uint32Array` element can hold. */
  type Uint32 = r: int | 0 <= r < 0x1_0000_0000

  /** `randomValue / 2 ** 32`: strictly below 1, although the source's
      comment calls the range [0, 1]. */
  function Normalize(r: Uint32): (n: real)
    ensures 0.0 <= n < 1.0
    ensures n == 0.0 <==> r == 0
  {
    r as real / TWO_POW_32 as real
  }

  /** `normalizedValue * (b - a + 1)`: in `[0, width)` for a positive width
      and 0 for a zero width. */
  function Scaled(r: Uint32, width: real): (s: real)
    ensures width >= 0.0 ==> 0.0 <= s
    ensures width > 0.0 ==> s < width
  {
    var n := Normalize(r);
    if width >= 0.0 then
      ScaledRange(n, width);
      n * width
    else
      n * width
  }

  /** `a + Math.floor(normalizedValue * (b - a + 1))`: a whole number of
      steps above `a`, and never below `a` unless the width is negative. */
  function Rand(a: real, b: real, r: Uint32): (v: real)
    ensures IsWhole(v - a)
    ensures b - a + 1.0 >= 0.0 ==> a <= v
  {
    a + Scaled(r, b - a + 1.0).Floor as real
  }

  /** True when `v` has no fractional part. */
  predicate IsWhole(v: real)
  {
    v.Floor as real == v
  }

  /** The offset from `a` is the scaled word with its fraction dropped. */
  lemma RandOffsetIsFlooredScale(a: real, b: real, r: Uint32)
    ensures Rand(a, b, r) - a <= Scaled(r, b - a + 1.0) < Rand(a, b, r) - a + 1.0
  {
  }

  /** A product of two non-negative reals is non-negative. */
  lemma ProductNonNegative(x: real, y: real)
    requires x >= 0.0 && y >= 0.0
    ensures x * y >= 0.0
  {
  }

  /** Scaling a non-negative width by a factor in `[0, 1)` stays in
      `[0, width)`. */
  lemma ScaledRange(n: real, w: real)
    requires 0.0 <= n < 1.0 && w >= 0.0
    ensures 0.0 <= n * w
    ensures w > 0.0 ==> n * w < w
  {
    ProductNonNegative(n, w);
    if w > 0.0 {
      ProductNonNegative(1.0 - n, w);
      assert (1.0 - n) * w != 0.0;
    }
  }

  /** Flooring a value in `[0, w)`, for a whole `w`, gives at most `w - 1`. */
  lemma FloorBelowWhole(s: real, w: real)
    requires 0.0 <= s < w && IsWhole(w)
    ensures 0 <= s.Floor && s.Floor as real <= w - 1.0
  {
    assert s.Floor as real <= s;
    assert w.Floor as real == w;
    assert s.Floor < w.Floor;
  }

  /** Adding one to a whole number keeps it whole. */
  lemma WholePlusOne(v: real)
    requires IsWhole(v)
    ensures IsWhole(v + 1.0)
  {
    assert (v + 1.0).Floor == v.Floor + 1;
  }

  /** When `b - a` is a non-negative whole number, `rand(a, b)` is one of
      `a, a + 1, ..., b`: the inclusive range the doc comment promises. */
  lemma RandInclusive(a: real, b: real, r: Uint32)
    requires a <= b && IsWhole(b - a)
    ensures a <= Rand(a, b, r) <= b
    ensures IsWhole(Rand(a, b, r) - a)
  {
    WholePlusOne(b - a);
    FloorBelowWhole(Scaled(r, b - a + 1.0), b - a + 1.0);
  }

  /** Every whole offset in the inclusive range is produced by some word, so
      no value of `a, ..., b` is out of reach (for ranges no wider than the
      number of words). */
  lemma RandReachesEveryValue(a: real, b: real, k: nat)
    requires a <= b && IsWhole(b - a) && b - a < TWO_POW_32 as real
    requires k as real <= b - a
    ensures exists r: Uint32 :: Rand(a, b, r) == a + k as real
  {
    var w := b - a + 1.0;
    var r := SmallestWordReaching(k, w);
    assert Rand(a, b, r) == a + k as real;
  }

  /** The smallest word whose scaled value reaches the whole number `k`:
      the rounded-up quotient `k * 2^32 / w`. */
  lemma SmallestWordReaching(k: nat, w: real) returns (r: Uint32)
    requires 1.0 <= w <= TWO_POW_32 as real && k as real <= w - 1.0
    ensures Scaled(r, w).Floor == k
    ensures forall r': Uint32 :: r' < r ==> Scaled(r', w).Floor < k
  {
    var m := TWO_POW_32 as real;
    var p := w / m;
    var x := k as real / p;
    CeilingWordInRange(k, w, m, p, x);
    var c := -((-x).Floor);
    assert x <= c as real < x + 1.0;
    assert x * p == k as real;
    r := c;
    CeilingScaledBack(k as real, p, x, c as real);
    assert Scaled(r, w) == c as real * p;
    forall r': Uint32 | r' < r
      ensures Scaled(r', w).Floor < k
    {
      ScaledBelowCeiling(k, w, x, c, r');
    }
  }

  /** A word below the rounded-up quotient `c` of `x = k / p` scales to less
      than `k`. */
  lemma ScaledBelowCeiling(k: nat, w: real, x: real, c: int, r: Uint32)
    requires 0.0 < w && x * (w / TWO_POW_32 as real) == k as real
    requires c as real < x + 1.0 && r < c
    ensures Scaled(r, w).Floor < k
  {
    var p := w / TWO_POW_32 as real;
    assert (r as real) < x;
    ScaleStrict(p, r as real, x);
    assert Scaled(r, w) == r as real * p;
  }

  /** `k / p` lies below the number of words when `p` is the width per word. */
  lemma CeilingWordInRange(k: nat, w: real, m: real, p: real, x: real)
    requires 1.0 <= w <= m && k as real <= w - 1.0 && p == w / m && x == k as real / p
    ensures 0.0 <= x <= m - 1.0
  {
    assert p > 0.0 && p <= 1.0;
    assert x * p == k as real;
    ScaleMonotone(1.0 / p, k as real, w - 1.0);
    assert (w - 1.0) / p == m - 1.0 / p;
    assert 1.0 / p >= 1.0;
  }

  /** The rounded-up quotient, scaled back by `p <= 1`, floors to `k`. */
  lemma CeilingScaledBack(k: real, p: real, x: real, c: real)
    requires 0.0 < p <= 1.0 && x * p == k && x <= c < x + 1.0
    ensures k <= c * p < k + 1.0
  {
    ScaledBackFromBelow(k, p, x, c);
    ScaledBackFromAbove(k, p, x, c);
  }

  lemma ScaledBackFromBelow(k: real, p: real, x: real, c: real)
    requires 0.0 < p && x * p == k && x <= c
    ensures k <= c * p
  {
    ScaleMonotone(p, x, c);
  }

  lemma ScaledBackFromAbove(k: real, p: real, x: real, c: real)
    requires 0.0 < p <= 1.0 && x * p == k && c < x + 1.0
    ensures c * p < k + 1.0
  {
    var d := x + 1.0 - c;
    ProductNonNegative(d, p);
    assert d * p != 0.0;
    assert c * p == x * p + p - d * p;
    BelowNextWhole(k, p, x * p, c * p, d * p);
  }

  /** The linear step of the bound above, with the products as plain values. */
  lemma BelowNextWhole(k: real, p: real, xp: real, cp: real, dp: real)
    requires xp == k && cp == xp + p - dp && dp > 0.0 && p <= 1.0
    ensures cp < k + 1.0
  {
  }

  /** Multiplying by a positive factor keeps the order. */
  lemma ScaleMonotone(p: real, u: real, v: real)
    requires p > 0.0 && u <= v
    ensures u * p <= v * p
  {
    ProductNonNegative(v - u, p);
  }

  /** Multiplying by a positive factor keeps the strict order. */
  lemma ScaleStrict(p: real, u: real, v: real)
    requires p > 0.0 && u < v
    ensures u * p < v * p
  {
    ProductNonNegative(v - u, p);
    assert (v - u) * p != 0.0;
  }

  /** A drawn word of 0 yields exactly `a`. */
  lemma RandOfZeroWord(a: real, b: real)
    ensures Rand(a, b, 0) == a
  {
  }

  /** With a width that is not whole the upper bound fails: `rand(0.01, 0.1)`
      (the call that draws a step size in tests/index.test.ts) returns 1.01
      for the word 4000000000. */
  lemma RandOvershootsFractionalRange()
    ensures Rand(0.01, 0.1, 4000000000) == 1.01
    ensures Rand(0.01, 0.1, 4000000000) > 0.1
  {
    assert Normalize(4000000000) * 1.09 >= 1.0;
    assert Normalize(4000000000) * 1.09 < 2.0;
  }
}
