/** The fee-rate test is written with 64-bit floating point division. This module gives
    that division its IEEE 754 meaning on the magnitudes that can occur (no overflow, no
    subnormal numbers) and shows that the test nevertheless decides an integer inequality. */
module Float64 {

  const TWO52: nat := 0x10_0000_0000_0000
  const TWO53: nat := 0x20_0000_0000_0000

  function Pow2(e: nat): (p: nat)
    ensures p >= 1
  {
    if e == 0 then 1 else 2 * Pow2(e - 1)
  }

  predicate IsScaled(x: real, m: int, e: nat) {
    x == (m * Pow2(e)) as real || x * Pow2(e) as real == m as real
  }

  /** Numbers with a significand of at most 53 bits. */
  ghost predicate Representable(x: real) {
    exists m: int, e: nat :: -(TWO53 as int) <= m <= TWO53 && IsScaled(x, m, e)
  }

  function Distance(x: real, y: real): real {
    if x < y then y - x else x - y
  }

  /** `y` is a result that rounding to nearest may give for the exact value `x`. */
  ghost predicate Nearest(x: real, y: real) {
    Representable(y) && forall z :: Representable(z) ==> Distance(x, y) <= Distance(x, z)
  }

  // ---------------------------------------------------------------- rounding

  function RoundHalfEven(n: nat, d: nat): nat
    requires d > 0
  {
    var q, r := n / d, n % d;
    if 2 * r < d || (2 * r == d && q % 2 == 0) then q else q + 1
  }

  function RoundBig(n: nat, d: nat): nat
    requires d > 0 && n >= TWO52 * d
    decreases n - TWO52 * d
  {
    if n < TWO53 * d then RoundHalfEven(n, d) else 2 * RoundBig(n, 2 * d)
  }

  /** The quotient `n / d`, rounded to 53 significant bits, ties to even. */
  function RoundRatio(n: nat, d: nat): real
    requires d > 0
    decreases if n < TWO52 * d then TWO52 * d - n else 0
  {
    if n == 0 then 0.0
    else if n < TWO52 * d then RoundRatio(2 * n, d) / 2.0
    else RoundBig(n, d) as real
  }

  /** An integer converted to a float. */
  function OfInteger(n: nat): nat {
    if n <= TWO53 then n else RoundBig(n, 1)
  }

  lemma MulLt(a: real, b: real, c: real)
    requires a < b && c > 0.0
    ensures a * c < b * c
  {}

  lemma CancelLe(a: real, b: real, c: real)
    requires c > 0.0 && a * c <= b * c
    ensures a <= b
  {
    if b < a {
      MulLt(b, a, c);
    }
  }

  lemma IntMulLe(a: int, b: int, c: int)
    requires a <= b && c >= 0
    ensures a * c <= b * c
  {}

  lemma IntCancelLt(a: int, b: int, c: int)
    requires c > 0 && a * c < b * c
    ensures a < b
  {
    if b <= a {
      IntMulLe(b, a, c);
    }
  }

  function Gap(n: int, k: int, d: nat): nat {
    if n < k * d then k * d - n else n - k * d
  }

  lemma RoundHalfEvenSmallestGap(n: nat, d: nat, k: int)
    requires d > 0
    ensures Gap(n, RoundHalfEven(n, d), d) <= Gap(n, k, d)
  {
    var q, r := n / d, n % d;
    assert n == q * d + r;
    assert (q + 1) * d == q * d + d;
    if k <= q {
      IntMulLe(k, q, d);
    } else {
      IntMulLe(q + 1, k, d);
    }
  }

  lemma RealProduct(a: int, b: int)
    ensures (a * b) as real == a as real * b as real
  {}

  lemma DistanceScaled(x: real, h: real, c: real, xc: real, hc: real) returns (a: real)
    requires c > 0.0 && x * c == xc && h * c == hc
    ensures a >= 0.0 && a * c == Distance(xc, hc)
    ensures a == x - h || a == h - x
  {
    if x < h {
      MulLt(x, h, c);
      a := h - x;
      assert a * c == h * c - x * c;
    } else if h < x {
      MulLt(h, x, c);
      a := x - h;
      assert a * c == x * c - h * c;
    } else {
      a := 0.0;
    }
  }

  lemma CloserScaled(x: real, h: real, k: real, c: real, xc: real, hc: real, kc: real)
    requires c > 0.0 && x * c == xc && h * c == hc && k * c == kc
    requires Distance(xc, hc) <= Distance(xc, kc)
    ensures Distance(x, h) <= Distance(x, k)
  {
    var a := DistanceScaled(x, h, c, xc, hc);
    var b := DistanceScaled(x, k, c, xc, kc);
    CompareScaled(a, b, c, Distance(xc, hc), Distance(xc, kc));
  }

  lemma CompareScaled(a: real, b: real, c: real, ac: real, bc: real)
    requires c > 0.0 && a * c == ac && b * c == bc && ac <= bc
    ensures a <= b
  {
    CancelLe(a, b, c);
  }

  lemma GapDistance(n: nat, k: int, d: nat)
    requires d > 0
    ensures Gap(n, k, d) as real == Distance(n as real, (k * d) as real)
  {}

  lemma SmallerGapCloser(x: real, n: nat, d: nat, h: int, k: int)
    requires d > 0 && x * d as real == n as real && Gap(n, h, d) <= Gap(n, k, d)
    ensures Distance(x, h as real) <= Distance(x, k as real)
  {
    GapDistance(n, h, d);
    GapDistance(n, k, d);
    RealProduct(h, d);
    RealProduct(k, d);
    CloserScaled(x, h as real, k as real, d as real, n as real, (h * d) as real, (k * d) as real);
  }

  lemma RoundHalfEvenCloser(x: real, n: nat, d: nat, k: int)
    requires d > 0 && x * d as real == n as real
    ensures Distance(x, RoundHalfEven(n, d) as real) <= Distance(x, k as real)
  {
    RoundHalfEvenSmallestGap(n, d, k);
    SmallerGapCloser(x, n, d, RoundHalfEven(n, d), k);
  }

  lemma IntegerRepresentable(m: int)
    requires -(TWO53 as int) <= m <= TWO53
    ensures Representable(m as real)
  {
    assert Pow2(0) == 1;
    assert IsScaled(m as real, m, 0);
  }

  lemma FractionBelow(z: real, m: int, e: nat)
    requires m <= TWO53 && e > 0 && z * Pow2(e) as real == m as real
    ensures z <= TWO52 as real
  {
    var p := Pow2(e) as real;
    assert p >= 2.0;
    assert z * p <= TWO52 as real * p;
    CancelLe(z, TWO52 as real, p);
  }

  lemma Whole(z: real, m: int, e: nat) returns (k: int)
    requires z == (m * Pow2(e)) as real || (e == 0 && z * Pow2(e) as real == m as real)
    ensures z == k as real
  {
    assert Pow2(0) == 1;
    k := m * Pow2(e);
  }

  lemma BaseRangeCloser(x: real, n: nat, d: nat, z: real)
    requires d > 0 && x * d as real == n as real
    requires x >= TWO52 as real && Representable(z)
    ensures Distance(x, RoundHalfEven(n, d) as real) <= Distance(x, z)
  {
    var m: int, e: nat :| -(TWO53 as int) <= m <= TWO53 && IsScaled(z, m, e);
    if z * Pow2(e) as real == m as real && e > 0 {
      FractionBelow(z, m, e);
      RoundHalfEvenCloser(x, n, d, TWO52);
    } else {
      var k := Whole(z, m, e);
      RoundHalfEvenCloser(x, n, d, k);
    }
  }

  lemma RoundHalfEvenRange(n: nat, d: nat)
    requires d > 0 && n < TWO53 * d
    ensures RoundHalfEven(n, d) <= TWO53
  {
    var q := n / d;
    assert n == q * d + n % d;
    IntCancelLt(q, TWO53, d);
  }

  lemma BaseRangeNearest(x: real, n: nat, d: nat)
    requires d > 0 && TWO52 * d <= n < TWO53 * d && x * d as real == n as real
    ensures Nearest(x, RoundHalfEven(n, d) as real)
  {
    RoundHalfEvenRange(n, d);
    IntegerRepresentable(RoundHalfEven(n, d));
    RealProduct(TWO52, d);
    CompareScaled(TWO52 as real, x, d as real, (TWO52 * d) as real, n as real);
    forall z | Representable(z)
      ensures Distance(x, RoundHalfEven(n, d) as real) <= Distance(x, z)
    {
      BaseRangeCloser(x, n, d, z);
    }
  }

  lemma Rescale(x: real, p: real)
    ensures (x / 2.0) * (2.0 * p) == x * p
    ensures (2.0 * x) * p == x * (2.0 * p)
  {}

  lemma HalfRepresentable(x: real)
    requires Representable(x)
    ensures Representable(x / 2.0)
  {
    var m: int, e: nat :| -(TWO53 as int) <= m <= TWO53 && IsScaled(x, m, e);
    if x * Pow2(e) as real == m as real {
      HalfFraction(x, m, e);
    } else if e > 0 {
      HalfWhole(x, m, e);
    }
  }

  lemma HalfWhole(x: real, m: int, e: nat)
    requires x == (m * Pow2(e)) as real && e > 0
    ensures IsScaled(x / 2.0, m, e - 1)
  {
    var p := Pow2(e - 1);
    assert Pow2(e) == 2 * p;
    assert m * (2 * p) == 2 * (m * p);
  }

  lemma HalfFraction(x: real, m: int, e: nat)
    requires x * Pow2(e) as real == m as real
    ensures IsScaled(x / 2.0, m, e + 1)
  {
    Rescale(x, Pow2(e) as real);
    assert Pow2(e + 1) as real == 2.0 * Pow2(e) as real;
  }

  lemma DoubleRepresentable(x: real)
    requires Representable(x)
    ensures Representable(2.0 * x)
  {
    var m: int, e: nat :| -(TWO53 as int) <= m <= TWO53 && IsScaled(x, m, e);
    if x == (m * Pow2(e)) as real {
      DoubleWhole(x, m, e);
    } else if e > 0 {
      DoubleFraction(x, m, e);
    }
  }

  lemma DoubleFraction(x: real, m: int, e: nat)
    requires x * Pow2(e) as real == m as real && e > 0
    ensures IsScaled(2.0 * x, m, e - 1)
  {
    Rescale(x, Pow2(e - 1) as real);
    assert Pow2(e) as real == 2.0 * Pow2(e - 1) as real;
  }

  lemma DoubleWhole(x: real, m: int, e: nat)
    requires x == (m * Pow2(e)) as real
    ensures IsScaled(2.0 * x, m, e + 1)
  {
    var p := Pow2(e);
    assert Pow2(e + 1) == 2 * p;
    assert m * (2 * p) == 2 * (m * p);
  }

  lemma NearestHalf(x: real, y: real)
    requires Nearest(x, y)
    ensures Nearest(x / 2.0, y / 2.0)
  {
    HalfRepresentable(y);
    forall z | Representable(z)
      ensures Distance(x / 2.0, y / 2.0) <= Distance(x / 2.0, z)
    {
      DoubleRepresentable(z);
      assert Distance(x, y) <= Distance(x, 2.0 * z);
    }
  }

  lemma NearestDouble(x: real, y: real)
    requires Nearest(x, y)
    ensures Nearest(2.0 * x, 2.0 * y)
  {
    DoubleRepresentable(y);
    forall z | Representable(z)
      ensures Distance(2.0 * x, 2.0 * y) <= Distance(2.0 * x, z)
    {
      HalfRepresentable(z);
      assert Distance(x, y) <= Distance(x, z / 2.0);
    }
  }

  lemma {:induction false} RoundBigNearest(x: real, n: nat, d: nat)
    requires d > 0 && n >= TWO52 * d && x * d as real == n as real
    ensures Nearest(x, RoundBig(n, d) as real)
    decreases n - TWO52 * d
  {
    if n < TWO53 * d {
      BaseRangeNearest(x, n, d);
    } else {
      Rescale(x, d as real);
      RoundBigNearest(x / 2.0, n, 2 * d);
      NearestDouble(x / 2.0, RoundBig(n, 2 * d) as real);
      assert 2.0 * (x / 2.0) == x;
    }
  }

  /** The computed quotient is a number nearest to the exact one. */
  lemma {:induction false} RoundRatioNearest(x: real, n: nat, d: nat)
    requires d > 0 && x * d as real == n as real
    ensures Nearest(x, RoundRatio(n, d))
    decreases if n < TWO52 * d then TWO52 * d - n else 0
  {
    if n == 0 {
      IntegerRepresentable(0);
      CancelLe(x, 0.0, d as real);
      CancelLe(0.0, x, d as real);
    } else if n < TWO52 * d {
      Rescale(x, d as real);
      RoundRatioNearest(2.0 * x, 2 * n, d);
      NearestHalf(2.0 * x, RoundRatio(2 * n, d));
      assert (2.0 * x) / 2.0 == x;
    } else {
      RoundBigNearest(x, n, d);
    }
  }

  // ---------------------------------------------------------------- the fee test

  /** The test `(fee as f64) / (weight as f64) < (rate as f64)`. */
  predicate QuotientBelow(fee: nat, weight: nat, rate: nat)
    requires weight > 0
  {
    OfIntegerPositive(weight);
    RoundRatio(OfInteger(fee), OfInteger(weight)) < OfInteger(rate) as real
  }

  lemma {:induction false} RoundBigLarge(n: nat, d: nat)
    requires d > 0 && n >= TWO52 * d
    ensures RoundBig(n, d) >= TWO52
    decreases n - TWO52 * d
  {
    if n < TWO53 * d {
      var q := n / d;
      assert n == q * d + n % d;
      assert (q + 1) * d == q * d + d;
      IntCancelLt(TWO52, q + 1, d);
    } else {
      RoundBigLarge(n, 2 * d);
    }
  }

  lemma OfIntegerPositive(n: nat)
    requires n > 0
    ensures OfInteger(n) > 0
  {
    if n > TWO53 {
      RoundBigLarge(n, 1);
    }
  }

  function Shift(rate: nat): (s: nat)
    requires 0 < rate <= TWO53
    ensures TWO52 < rate * Pow2(s) <= TWO53
    decreases TWO53 - rate
  {
    if rate > TWO52 then assert Pow2(0) == 1; 0
    else
      var s := Shift(2 * rate);
      assert rate * Pow2(s + 1) == 2 * rate * Pow2(s);
      s + 1
  }

  /** Between a quotient short of `rate` and `rate` itself there is room for a float `c / p`. */
  lemma GridPointCloser(fee: nat, weight: nat, rate: nat, p: nat, c: nat)
    requires weight > 0 && p > 0 && fee <= TWO53 && fee < rate * weight
    requires TWO52 < rate * p <= TWO53
    requires c * weight <= fee * p < c * weight + weight
    ensures c < rate * p
    ensures 2 * (fee * p) < rate * p * weight + c * weight
  {
    var k, gap := rate * p, rate * weight - fee;
    Interchange(rate, weight, p, fee);
    IntMulLe(1, gap, p);
    IntCancelLt(c, k, weight);
    if c + 1 < k {
      IntMulLe(c + 2, k, weight);
      assert (c + 2) * weight == c * weight + 2 * weight;
    } else {
      assert k == c + 1;
      assert k * weight == c * weight + weight;
      LastGridPoint(weight, rate, p, gap);
    }
  }

  lemma Interchange(rate: nat, weight: nat, p: nat, fee: nat)
    ensures rate * p * weight == fee * p + (rate * weight - fee) * p
  {
    assert (rate * weight - fee) * p == rate * weight * p - fee * p;
    assert rate * weight * p == rate * p * weight;
  }

  lemma LastGridPoint(weight: nat, rate: nat, p: nat, gap: nat)
    requires gap >= 1 && rate * weight <= TWO53 + gap && TWO52 < rate * p
    ensures 2 * (gap * p) > weight
  {
    IntMulLe(TWO52 + 1, rate * p, 2 * gap);
    assert 2 * gap * (rate * p) == 2 * (gap * p) * rate;
    assert (TWO52 + 1) * (2 * gap) > TWO53 + gap;
    IntCancelLt(weight, 2 * (gap * p), rate);
  }

  // ---------------------------------------------------------------- the exact verdict

  lemma RoundHalfEvenScaled(n: nat, d: nat)
    requires d > 0
    ensures RoundHalfEven(2 * n, 2 * d) == RoundHalfEven(n, d)
  {
    var q, r := n / d, n % d;
    assert 2 * n == q * (2 * d) + 2 * r;
    DivisionIs(2 * n, 2 * d, q, 2 * r);
  }

  lemma DivisionIs(n: nat, d: nat, q: nat, r: nat)
    requires d > 0 && n == q * d + r && r < d
    ensures n / d == q && n % d == r
  {
    var q', r' := n / d, n % d;
    assert n == q' * d + r';
    assert (q + 1) * d == q * d + d && (q' + 1) * d == q' * d + d;
    if q < q' {
      IntMulLe(q + 1, q', d);
    } else if q' < q {
      IntMulLe(q' + 1, q, d);
    }
  }

  lemma {:induction false} RoundBigScaled(n: nat, d: nat)
    requires d > 0 && n >= TWO52 * d
    ensures RoundBig(2 * n, 2 * d) == RoundBig(n, d)
    decreases n - TWO52 * d
  {
    if n < TWO53 * d {
      RoundHalfEvenScaled(n, d);
    } else {
      RoundBigScaled(n, 2 * d);
    }
  }

  /** Doubling a quotient doubles its rounded value. */
  lemma RoundRatioDoubled(n: nat, d: nat)
    requires d > 0
    ensures RoundRatio(2 * n, d) == 2.0 * RoundRatio(n, d)
  {
    if n >= TWO52 * d {
      RoundBigScaled(n, d);
      assert RoundBig(2 * n, d) == 2 * RoundBig(2 * n, 2 * d);
    }
  }

  /** What doubles with its argument scales by every power of two. */
  lemma {:induction false} DoublingScales(g: nat -> real, n: nat, e: nat)
    requires forall m: nat :: g(2 * m) == 2.0 * g(m)
    ensures g(n * Pow2(e)) == g(n) * Pow2(e) as real
  {
    if e == 0 {
      assert n * Pow2(0) == n;
    } else {
      var p := Pow2(e - 1);
      DoublingScales(g, n, e - 1);
      NextScale(n, p, g(n), g(n * p));
    }
  }

  lemma NextScale(n: nat, p: nat, x: real, xp: real)
    requires xp == x * p as real
    ensures n * (2 * p) == 2 * (n * p) && 2.0 * xp == x * (2 * p) as real
  {
    assert (2 * p) as real == 2.0 * p as real;
  }

  /** `n / d` lies below the point halfway between `k - 1` and `k`, or on it when `k` is odd. */
  predicate BelowHalfway(n: nat, d: nat, k: nat) {
    2 * n + d < 2 * (k * d) || (2 * n + d == 2 * (k * d) && k % 2 == 1)
  }

  lemma RoundHalfEvenBelowIff(n: nat, d: nat, k: nat)
    requires d > 0
    ensures RoundHalfEven(n, d) < k <==> BelowHalfway(n, d, k)
  {
    ProductSteps(n / d, k, d);
    Remainder(n, d);
    HalfwayCases(n, d, n / d, n % d, k, n / d * d, k * d);
  }

  lemma Remainder(n: nat, d: nat)
    requires d > 0
    ensures n == n / d * d + n % d
  {}

  lemma ProductSteps(q: nat, k: nat, d: nat)
    ensures q + 1 < k ==> q * d + 2 * d <= k * d
    ensures q + 1 == k ==> q * d + d == k * d
    ensures q >= k ==> k * d <= q * d
  {
    if q + 1 < k {
      IntMulLe(q + 2, k, d);
      assert (q + 2) * d == q * d + 2 * d;
    } else if q >= k {
      IntMulLe(k, q, d);
    }
  }

  lemma HalfwayCases(n: nat, d: nat, q: nat, r: nat, k: nat, qd: nat, kd: nat)
    requires n == qd + r && r < d
    requires q + 1 < k ==> qd + 2 * d <= kd
    requires q + 1 == k ==> qd + d == kd
    requires q >= k ==> kd <= qd
    ensures (if 2 * r < d || (2 * r == d && q % 2 == 0) then q else q + 1) < k <==>
              2 * n + d < 2 * kd || (2 * n + d == 2 * kd && k % 2 == 1)
  {}

  /** Just below `k` the numbers of 53 bits are the integers, so rounding stays below `k` exactly
      if the quotient is below the halfway point. */
  lemma RoundRatioBelowIff(n: nat, d: nat, k: nat)
    requires d > 0 && TWO52 < k <= TWO53
    ensures RoundRatio(n, d) < k as real <==> BelowHalfway(n, d, k)
  {
    if n < TWO52 * d {
      IntMulLe(TWO52 + 1, k, d);
      assert (TWO52 + 1) * d == TWO52 * d + d;
      RoundsAtMost(n, d, TWO52);
    } else if n < TWO53 * d {
      RoundHalfEvenBelowIff(n, d, k);
      assert RoundRatio(n, d) == RoundHalfEven(n, d) as real;
    } else {
      IntMulLe(k, TWO53, d);
      RoundsAtLeast(n, d, TWO53);
    }
  }

  lemma RoundsAtMost(n: nat, d: nat, m: nat)
    requires d > 0 && n <= m * d && m <= TWO53
    ensures RoundRatio(n, d) <= m as real
  {
    var x := Quotient(n, d);
    RoundRatioNearest(x, n, d);
    LowQuotientStays(x, n, d, m, RoundRatio(n, d));
  }

  lemma LowQuotientStays(q: real, n: nat, d: nat, m: nat, y: real)
    requires d > 0 && q * d as real == n as real && Nearest(q, y)
    requires n <= m * d && m <= TWO53
    ensures y <= m as real
  {
    IntegerRepresentable(m);
    RealProduct(m, d);
    CompareScaled(q, m as real, d as real, n as real, (m * d) as real);
    assert Distance(q, y) <= Distance(q, m as real);
  }

  lemma RoundsAtLeast(n: nat, d: nat, m: nat)
    requires d > 0 && n >= m * d && m <= TWO53
    ensures RoundRatio(n, d) >= m as real
  {
    var x := Quotient(n, d);
    RoundRatioNearest(x, n, d);
    FullQuotientStays(x, n, d, m, RoundRatio(n, d));
  }

  /** Scaled by a power of two so that the rate has 53 bits, the fee is short by half a unit or more. */
  predicate ShortByHalfUnit(fee: nat, weight: nat, rate: nat)
    requires 0 < rate <= TWO53
  {
    var p := Pow2(Shift(rate));
    BelowHalfway(OfInteger(fee) * p, OfInteger(weight), rate * p)
  }

  /** The exact verdict of the floating point test, for every fee and every weight. */
  lemma FeeTestIff(fee: nat, weight: nat, rate: nat)
    requires weight > 0 && rate <= TWO53
    ensures QuotientBelow(fee, weight, rate) <==> rate > 0 && ShortByHalfUnit(fee, weight, rate)
  {
    OfIntegerPositive(weight);
    var f, w := OfInteger(fee), OfInteger(weight);
    if rate == 0 {
      RoundsAtLeast(f, w, 0);
    } else {
      QuotientBelowIff(f, w, rate, Shift(rate), f * Pow2(Shift(rate)), rate * Pow2(Shift(rate)));
    }
  }

  function Rounder(d: nat): nat -> real
    requires d > 0
  {
    (n: nat) => RoundRatio(n, d)
  }

  lemma RounderDoubles(d: nat)
    requires d > 0
    ensures forall m: nat :: Rounder(d)(2 * m) == 2.0 * Rounder(d)(m)
  {
    forall m: nat
      ensures Rounder(d)(2 * m) == 2.0 * Rounder(d)(m)
    {
      RoundRatioDoubled(m, d);
    }
  }

  lemma RounderBelowIff(n: nat, d: nat, k: nat)
    requires d > 0 && TWO52 < k <= TWO53
    ensures Rounder(d)(n) < k as real <==> BelowHalfway(n, d, k)
  {
    RoundRatioBelowIff(n, d, k);
  }

  /** Comparing before scaling and after scaling comes to the same. */
  lemma ScaledBelowIff(g: nat -> real, f: nat, e: nat, rate: nat, n: nat, k: nat)
    requires forall m: nat :: g(2 * m) == 2.0 * g(m)
    requires n == f * Pow2(e) && k == rate * Pow2(e)
    ensures g(f) < rate as real <==> g(n) < k as real
  {
    var p := Pow2(e);
    DoublingScales(g, f, e);
    RealProduct(rate, p);
    if g(f) < rate as real {
      MulLt(g(f), rate as real, p as real);
    } else {
      MulLe(rate as real, g(f), p as real);
    }
  }

  lemma QuotientBelowIff(f: nat, w: nat, rate: nat, e: nat, n: nat, k: nat)
    requires w > 0 && n == f * Pow2(e) && k == rate * Pow2(e) && TWO52 < k <= TWO53
    ensures RoundRatio(f, w) < rate as real <==> BelowHalfway(n, w, k)
  {
    RounderDoubles(w);
    ScaledBelowIff(Rounder(w), f, e, rate, n, k);
    RounderBelowIff(n, w, k);
  }

  lemma MulLe(a: real, b: real, c: real)
    requires a <= b && c > 0.0
    ensures a * c <= b * c
  {}

  /** Rounding never changes the verdict while the fee, or the fee asked for, is at most 2^53 satoshis:
      the floating point test is the integer comparison. */
  lemma FeeTestExact(fee: nat, weight: nat, rate: nat)
    requires 0 < weight <= TWO53 && rate <= TWO53
    requires fee <= TWO53 || rate * weight <= TWO53
    ensures QuotientBelow(fee, weight, rate) <==> fee < rate * weight
  {
    var f := OfInteger(fee);
    var q := Quotient(f, weight);
    RoundRatioNearest(q, f, weight);
    if fee < rate * weight {
      ShortQuotientRoundsShort(q, fee, weight, rate, RoundRatio(fee, weight));
    } else {
      if fee > TWO53 {
        OfIntegerKeepsLarge(fee);
      }
      FullQuotientStays(q, f, weight, rate, RoundRatio(f, weight));
    }
  }

  lemma OfIntegerNearest(n: nat)
    ensures Nearest(n as real, OfInteger(n) as real)
  {
    if n <= TWO53 {
      IntegerRepresentable(n);
    } else {
      RoundBigNearest(n as real, n, 1);
    }
  }

  lemma OfIntegerKeepsLarge(n: nat)
    requires n > TWO53
    ensures OfInteger(n) >= TWO53
  {
    OfIntegerNearest(n);
    IntegerRepresentable(TWO53);
    assert Distance(n as real, OfInteger(n) as real) <= Distance(n as real, TWO53 as real);
  }

  /** Converting a fee at most doubles it. */
  lemma OfIntegerAtMostDoubles(n: nat)
    ensures OfInteger(n) <= 2 * n
  {
    OfIntegerNearest(n);
    IntegerRepresentable(0);
    assert Distance(n as real, OfInteger(n) as real) <= Distance(n as real, 0.0);
  }

  /** However large the fee, it is refused if it does not exceed the rate for `size` units, where four
      times that many exceed the weight by three at most. */
  lemma QuarterRefused(fee: nat, weight: nat, rate: nat, size: nat)
    requires 40 <= weight <= TWO53 && 0 < rate <= TWO53 && 4 * size <= weight + 3
    requires fee <= rate * size
    ensures QuotientBelow(fee, weight, rate)
  {
    OfIntegerAtMostDoubles(fee);
    FeeTestIff(fee, weight, rate);
    ShortByFar(OfInteger(fee), fee, weight, rate, size, Pow2(Shift(rate)));
  }

  /** What an accepted fee covers. */
  lemma AcceptedCovers(fee: nat, weight: nat, rate: nat, size: nat)
    requires 40 <= weight <= TWO53 && rate <= TWO53 && 4 * size <= weight + 3
    requires !QuotientBelow(fee, weight, rate)
    ensures fee >= rate * size
    ensures fee <= TWO53 || rate * weight <= TWO53 ==> fee >= rate * weight
  {
    if fee < rate * size {
      QuarterRefused(fee, weight, rate, size);
    }
    if fee <= TWO53 || rate * weight <= TWO53 {
      FeeTestExact(fee, weight, rate);
    }
  }

  lemma ShortByFar(f: nat, fee: nat, weight: nat, rate: nat, size: nat, p: nat)
    requires weight >= 40 && 4 * size <= weight + 3 && f <= 2 * fee && fee <= rate * size
    requires TWO52 < rate * p
    ensures BelowHalfway(f * p, weight, rate * p)
  {
    var k := rate * p;
    IntMulLe(f, 2 * (rate * size), p);
    assert 2 * (rate * size) * p == 2 * (k * size);
    IntMulLe(4 * size, weight + 3, k);
    assert k * (4 * size) == 4 * (k * size) && k * (weight + 3) == k * weight + 3 * k;
    IntMulLe(40, weight, k);
    IntMulLe(TWO52, k, weight);
  }

  lemma Quotient(n: nat, d: nat) returns (q: real)
    requires d > 0
    ensures q * d as real == n as real
  {
    q := n as real / d as real;
  }

  lemma FullQuotientStays(q: real, fee: nat, weight: nat, rate: nat, y: real)
    requires weight > 0 && q * weight as real == fee as real && Nearest(q, y)
    requires fee >= rate * weight && rate <= TWO53
    ensures y >= rate as real
  {
    IntegerRepresentable(rate);
    RealProduct(rate, weight);
    CancelLe(rate as real, q, weight as real);
    assert Distance(q, y) <= Distance(q, rate as real);
  }

  lemma ShortQuotientRoundsShort(q: real, fee: nat, weight: nat, rate: nat, y: real)
    requires weight > 0 && q * weight as real == fee as real && Nearest(q, y)
    requires fee <= TWO53 && fee < rate * weight && rate <= TWO53
    ensures y < rate as real
  {
    assert rate > 0;
    var s := Shift(rate);
    var p := Pow2(s);
    var c := FloorQuotient(fee * p, weight);
    GridPointCloser(fee, weight, rate, p, c);
    var z := Quotient(c, p);
    assert IsScaled(z, c, s);
    assert Representable(z);
    CloserThanRate(q, fee, weight, p, z, c, rate);
    assert Distance(q, y) <= Distance(q, z);
  }

  lemma FloorQuotient(n: nat, d: nat) returns (c: nat)
    requires d > 0
    ensures c * d <= n < c * d + d
  {
    c := n / d;
    assert n == c * d + n % d;
  }

  /** `z = c / p` is at most `q` and strictly closer to it than `rate` is. */
  lemma CloserThanRate(q: real, fee: nat, weight: nat, p: nat, z: real, c: nat, rate: nat)
    requires weight > 0 && p > 0 && q * weight as real == fee as real && z * p as real == c as real
    requires c * weight <= fee * p
    requires 2 * (fee * p) < rate * p * weight + c * weight
    ensures z <= q && 2.0 * q < rate as real + z
  {
    var wp := weight as real * p as real;
    Units(q, fee, weight, p, z, c, rate);
    CancelLe(z, q, wp);
    StrictCancel(2.0 * q, rate as real + z, wp);
  }

  lemma StrictCancel(a: real, b: real, c: real)
    requires c > 0.0 && a * c < b * c
    ensures a < b
  {
    CancelLe(a, b, c);
  }

  /** `q`, `z` and `rate` measured in units of `1 / (weight * p)`. */
  lemma Units(q: real, fee: nat, weight: nat, p: nat, z: real, c: nat, rate: nat)
    requires weight > 0 && p > 0 && q * weight as real == fee as real && z * p as real == c as real
    ensures weight as real * p as real > 0.0
    ensures q * (weight as real * p as real) == (fee * p) as real
    ensures z * (weight as real * p as real) == (c * weight) as real
    ensures (rate as real + z) * (weight as real * p as real) == (rate * p * weight + c * weight) as real
    ensures 2.0 * q * (weight as real * p as real) == (2 * (fee * p)) as real
  {
    var w, r := weight as real, p as real;
    assert q * (w * r) == (q * w) * r;
    assert (fee * p) as real == fee as real * r;
    assert z * (w * r) == (z * r) * w;
    assert (c * weight) as real == c as real * w;
    assert rate as real * (w * r) == (rate as real * r) * w;
    assert (rate * p * weight) as real == (rate as real * r) * w;
  }

  /** Past 2^53 the test errs in both directions: it accepts a fee that is one satoshi short, and it
      refuses one that meets the floor exactly. Both rates fit 32 bits. */
  lemma FeeTestErrsBothWays()
    ensures var fee, weight, rate := TWO53 + 0x40_0000 - 1, 0x40_0000, 0x8000_0001;
            fee < rate * weight && !QuotientBelow(fee, weight, rate)
    ensures var weight, rate := 2102423, 4285558295;
            QuotientBelow(rate * weight, weight, rate)
  {
    AcceptsShortFee();
    RefusesSufficientFee();
  }

  lemma AcceptsShortFee()
    ensures !QuotientBelow(TWO53 + 0x40_0000 - 1, 0x40_0000, 0x8000_0001)
  {
    var fee, weight, rate := TWO53 + 0x40_0000 - 1, 0x40_0000, 0x8000_0001;
    assert RoundHalfEven(fee, 2) == TWO52 + 0x20_0000;
    assert RoundBig(fee, 2) == TWO52 + 0x20_0000;
    assert OfInteger(fee) == rate * weight;
    var q := Quotient(rate * weight, weight);
    RoundRatioNearest(q, rate * weight, weight);
    FullQuotientStays(q, rate * weight, weight, rate, RoundRatio(rate * weight, weight));
  }

  lemma RefusesSufficientFee()
    ensures QuotientBelow(4285558295 * 2102423, 2102423, 4285558295)
  {
    var fee, weight, rate := 4285558295 * 2102423, 2102423, 4285558295;
    assert RoundHalfEven(fee, 2) == (fee - 1) / 2;
    assert RoundBig(fee, 2) == (fee - 1) / 2;
    assert OfInteger(fee) == fee - 1;
    PowerOf21();
    QuotientBelowIff(fee - 1, weight, rate, 21, (fee - 1) * 0x20_0000, rate * 0x20_0000);
  }

  lemma PowerOf21()
    ensures Pow2(21) == 0x20_0000
  {
    assert Pow2(3) == 8;
    assert Pow2(6) == 64;
    assert Pow2(9) == 512;
    assert Pow2(12) == 0x1000;
    assert Pow2(15) == 0x8000;
    assert Pow2(18) == 0x4_0000;
  }
}
