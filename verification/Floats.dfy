/** The two places where the controller computes in double precision, and why the integer
    formulas of this model give the same results. */
module Floats {
  import opened Common
  import Proportional

  function Abs(x: real): real {
    if x < 0.0 then -x else x
  }

  predicate IsInteger(x: real) {
    x == x.Floor as real
  }

  /** What IEEE 754 rounding to nearest guarantees of a result in the normal range: a relative
      error of at most 2^-53, and none for integers and halves of integers that fit. */
  ghost predicate RoundsToNearest(fl: real -> real) {
    forall x: real ::
      && Abs(fl(x) - x) <= Abs(x) / 9007199254740992.0
      && (IsInteger(2.0 * x) && Abs(x) <= 4503599627370496.0 ==> fl(x) == x)
  }

  function Ceil(x: real): int {
    -((-x).Floor)
  }

  /** Conversion of a float to an integer drops the fraction. */
  function Truncate(x: real): int {
    if x < 0.0 then Ceil(x) else x.Floor
  }

  /** math.Ceil(float64(desired) * float64(weight) / 100). */
  ghost function CeilOfShare(fl: real -> real, desired: int, weight: int): int {
    Ceil(fl(fl((desired * weight) as real) / 100.0))
  }

  lemma NoIntegerBetween(x: real, k: int)
    requires k as real < x < (k + 1) as real
    ensures Ceil(x) == k + 1 && x.Floor == k
  {
  }

  /** Halves of integers are exact. */
  lemma HalvesAreExact(fl: real -> real, m: int)
    requires RoundsToNearest(fl) && -4503599627370496 <= m <= 4503599627370496
    ensures fl(m as real / 2.0) == m as real / 2.0
  {
    var x := m as real / 2.0;
    assert 2.0 * x == m as real;
    assert IsInteger(2.0 * x);
  }

  lemma IntegersAreExact(fl: real -> real, n: int)
    requires RoundsToNearest(fl) && -2251799813685248 <= n <= 2251799813685248
    ensures fl(n as real) == n as real
  {
    HalvesAreExact(fl, 2 * n);
    assert (2 * n) as real / 2.0 == n as real;
  }

  lemma ErrorIsSmall(fl: real -> real, x: real)
    requires RoundsToNearest(fl) && 0.0 <= x <= 2147483648.0
    ensures Abs(fl(x) - x) < 0.001
  {
    assert Abs(x) == x;
    assert x / 9007199254740992.0 < 0.001;
  }

  /** Over all 32-bit sizes the floating-point split is the integer one. */
  lemma CeilIsExact(fl: real -> real, desired: int, weight: int)
    requires RoundsToNearest(fl)
    requires 0 <= desired < TWO_TO_31 && 0 <= weight <= 100
    ensures CeilOfShare(fl, desired, weight) == CeilDiv(desired * weight, 100)
  {
    hide RoundsToNearest, CeilDiv, Ceil;
    ShareFits(desired, weight);
    CeilOfHundredth(fl, desired * weight);
  }

  lemma ShareFits(desired: int, weight: int)
    requires 0 <= desired < TWO_TO_31 && 0 <= weight <= 100
    ensures 0 <= desired * weight <= 100 * TWO_TO_31
  {
  }

  lemma CeilOfHundredth(fl: real -> real, p: int)
    requires RoundsToNearest(fl) && 0 <= p <= 100 * TWO_TO_31
    ensures Ceil(fl(fl(p as real) / 100.0)) == CeilDiv(p, 100)
  {
    hide RoundsToNearest;
    IntegersAreExact(fl, p);
    var x, k := p as real / 100.0, p / 100;
    assert p == 100 * k + p % 100;
    assert p as real == 100.0 * (k as real) + (p % 100) as real;
    if p % 100 == 0 {
      assert x == k as real;
      IntegersAreExact(fl, k);
    } else {
      assert k as real + 0.01 <= x <= k as real + 0.99;
      ErrorIsSmall(fl, x);
      NoIntegerBetween(fl(x), k);
    }
  }

  /** RoundToInt32(float64(p) / float64(q)): add or subtract a half, then truncate. */
  ghost function RoundedQuotient(fl: real -> real, p: int, q: int): int
    requires q != 0
  {
    var a := fl(p as real / q as real);
    if a < 0.0 then Truncate(fl(a - 0.5)) else Truncate(fl(a + 0.5))
  }

  lemma RelativeError(fl: real -> real, x: real)
    requires RoundsToNearest(fl)
    ensures Abs(fl(x) - x) <= Abs(x) / 9007199254740992.0
  {
  }

  /** Two roundings do not carry x + 1/2 over an integer it keeps a distance d from, when d is
      not too small for the size of x. */
  lemma RoundingStaysBetween(fl: real -> real, x: real, d: real, k: int)
    requires RoundsToNearest(fl) && x >= 0.0 && d > 0.0
    requires x <= 4294967296.0 * d && 1.0 <= 4294967296.0 * d
    requires k as real + d <= x + 0.5 <= k as real + 1.0 - d
    ensures fl(x) >= 0.0 && Truncate(fl(fl(x) + 0.5)) == k
  {
    hide RoundsToNearest, Ceil;
    var a := fl(x);
    RelativeError(fl, x);
    assert x - x / 9007199254740992.0 <= a <= x + x / 9007199254740992.0;
    var b := fl(a + 0.5);
    RelativeError(fl, a + 0.5);
    assert k as real < b < k as real + 1.0;
    NoIntegerBetween(b, k);
  }

  lemma RoundingStaysBetweenBelow(fl: real -> real, x: real, d: real, k: int)
    requires RoundsToNearest(fl) && x < 0.0 && d > 0.0
    requires -x <= 4294967296.0 * d && 1.0 <= 4294967296.0 * d
    requires k as real + d <= -x + 0.5 <= k as real + 1.0 - d
    ensures fl(x) < 0.0 && Truncate(fl(fl(x) - 0.5)) == -k
  {
    hide RoundsToNearest, Ceil;
    var a := fl(x);
    RelativeError(fl, x);
    assert x + x / 9007199254740992.0 <= a <= x - x / 9007199254740992.0;
    var b := fl(a - 0.5);
    RelativeError(fl, a - 0.5);
    assert -(k as real) - 1.0 < b < -(k as real);
    NoIntegerBetween(b, -k - 1);
  }

  /** Products by name, so that the proofs below are linear. */
  ghost function Times(a: real, d: real): real {
    a * d
  }

  lemma TimesSum(a: real, b: real, d: real)
    ensures Times(a + b, d) == Times(a, d) + Times(b, d)
  {
  }

  lemma TimesUnit(d: real)
    ensures Times(1.0, d) == d && Times(-1.0, d) == -d
  {
  }

  lemma TimesOfZero(d: real)
    ensures Times(0.0, d) == 0.0
  {
  }

  lemma TimesOrder(a: real, b: real, d: real)
    requires a <= b && d > 0.0
    ensures Times(a, d) <= Times(b, d)
  {
  }

  lemma TimesProduct(a: real, k: real, d: real)
    ensures Times(a * k, d) == Times(a, d) * k
  {
    assert (a * k) * d == (a * d) * k;
  }

  lemma QuotientOfNegative(p: real, q: real)
    requires q > 0.0
    ensures (-p) / q == -(p / q)
  {
    assert (-(p / q)) * q == -p;
  }

  lemma QuotientIsProduct(p: real, q: real, d: real)
    requires q > 0.0 && Times(q, d) == 0.5
    ensures p / q == Times(2.0 * p, d)
  {
    assert (2.0 * p * d) * q == p * (2.0 * (q * d));
  }

  /** The quotient in units of d = 1 / 2q. */
  lemma QuotientInUnits(p: int, q: int) returns (x: real, d: real)
    requires 0 < q <= TWO_TO_31
    ensures x == p as real / q as real && d > 0.0 && Times(q as real, d) == 0.5
    ensures x == Times(2.0 * (p as real), d) && 1.0 <= 4294967296.0 * d
  {
    d := 0.5 / q as real;
    x := p as real / q as real;
    assert Times(q as real, d) == 0.5;
    QuotientIsProduct(p as real, q as real, d);
    TimesOrder(q as real, 2147483648.0, d);
  }

  lemma WholeUnits(Q: real, K: real, d: real)
    requires Times(Q, d) == 0.5
    ensures Times((2.0 * Q) * K, d) == K
  {
    TimesProduct(2.0 * Q, K, d);
    TimesSum(Q, Q, d);
    assert Q + Q == 2.0 * Q;
  }

  /** 2p + q divided by 2q leaves a remainder. */
  ghost predicate Divided(p: int, q: int, k: int, r: int) {
    2 * p + q == 2 * q * k + r && 0 < r < 2 * q
  }

  /** The integer bounds on 2p + q, as reals; n is 2qk. */
  lemma HalfBetween(p: int, q: int, k: int, r: int, d: real) returns (n: real)
    requires Divided(p, q, k, r) && Times(q as real, d) == 0.5
    ensures n + 1.0 <= 2.0 * (p as real) + q as real <= n + 2.0 * (q as real) - 1.0
    ensures Times(n, d) == k as real
  {
    var m := 2 * q * k;
    n := (2.0 * (q as real)) * (k as real);
    assert n == m as real;
    assert m + 1 <= 2 * p + q <= m + 2 * q - 1;
    assert (2 * p + q) as real == 2.0 * (p as real) + q as real;
    WholeUnits(q as real, k as real, d);
  }

  /** The same bounds in units of d. */
  lemma UnitsOfHalf(P: real, Q: real, K: real, n: real, d: real)
    requires d > 0.0 && Times(Q, d) == 0.5 && Times(n, d) == K
    requires n + 1.0 <= 2.0 * P + Q <= n + 2.0 * Q - 1.0
    ensures K + d <= Times(2.0 * P, d) + 0.5 <= K + 1.0 - d
  {
    hide Times;
    TimesOrder(n + 1.0, 2.0 * P + Q, d);
    TimesOrder(2.0 * P + Q, n + (Q + (Q + -1.0)), d);
    TimesUnit(d);
    TimesSum(n, 1.0, d);
    TimesSum(2.0 * P, Q, d);
    TimesSum(Q, -1.0, d);
    TimesSum(Q, Q + -1.0, d);
    TimesSum(n, Q + (Q + -1.0), d);
  }

  lemma SmallNumerator(p: int, d: real)
    requires 0 <= p <= TWO_TO_31 && d > 0.0
    ensures 0.0 <= Times(2.0 * (p as real), d) <= 4294967296.0 * d
  {
    TimesOrder(2.0 * (p as real), 4294967296.0, d);
    TimesOrder(0.0, 2.0 * (p as real), d);
  }

  /** Where x + 1/2 lies between two integers, for p >= 0. */
  lemma PlaceOfHalf(p: int, q: int, k: int, r: int, x: real, d: real)
    requires 0 <= p <= TWO_TO_31 && 0 < q <= TWO_TO_31
    requires d > 0.0 && Times(q as real, d) == 0.5 && x == Times(2.0 * (p as real), d)
    requires Divided(p, q, k, r)
    ensures k as real + d <= x + 0.5 <= k as real + 1.0 - d
    ensures 0.0 <= x <= 4294967296.0 * d
  {
    hide Times, Divided;
    SmallNumerator(p, d);
    var n := HalfBetween(p, q, k, r, d);
    UnitsOfHalf(p as real, q as real, k as real, n, d);
  }

  lemma HalfWay(p: int, q: int, k: int)
    requires 0 < q && 2 * p + q == 2 * q * k
    ensures p as real / q as real == (2 * k - 1) as real / 2.0
  {
  }

  lemma QuotientBounds(p: int, q: int, k: int)
    requires 0 <= p <= TWO_TO_31 && 0 < q <= TWO_TO_31 && 2 * p + q == 2 * q * k
    ensures 0 < k <= TWO_TO_32
  {
  }

  /** Over all 32-bit numerators and denominators but zero, the rounded floating-point quotient
      is the nearest integer, halves away from zero. */
  lemma RoundedQuotientIsExact(fl: real -> real, p: int, q: int)
    requires RoundsToNearest(fl) && -TWO_TO_31 <= p < TWO_TO_31 && -TWO_TO_31 <= q < TWO_TO_31 && q != 0
    ensures RoundedQuotient(fl, p, q) == Proportional.Quotient(p, q)
  {
    hide RoundsToNearest, Truncate, Proportional.RoundDiv;
    if q > 0 {
      PositiveQuotientIsExact(fl, p, q);
    } else {
      PositiveQuotientIsExact(fl, -p, -q);
      BothSigns(p as real, q as real);
      assert (-p) as real == -(p as real) && (-q) as real == -(q as real);
    }
  }

  lemma BothSigns(p: real, q: real)
    requires q != 0.0
    ensures (-p) / (-q) == p / q
  {
    assert (p / q) * (-q) == -p;
  }

  lemma PositiveQuotientIsExact(fl: real -> real, p: int, q: int)
    requires RoundsToNearest(fl) && -TWO_TO_31 <= p <= TWO_TO_31 && 0 < q <= TWO_TO_31
    ensures RoundedQuotient(fl, p, q) == Proportional.RoundDiv(p, q)
  {
    hide RoundsToNearest, Truncate, Ceil, Times;
    var size := if p < 0 then -p else p;
    var k, r := (2 * size + q) / (2 * q), (2 * size + q) % (2 * q);
    var x, d := QuotientInUnits(p, q);
    if r == 0 {
      RoundsHalfWay(fl, p, q, size, k);
    } else {
      if p < 0 {
        TimesSum(2.0 * (p as real), 2.0 * (size as real), d);
        TimesOfZero(d);
        PlaceOfHalf(size, q, k, r, -x, d);
        RoundingStaysBetweenBelow(fl, x, d, k);
      } else {
        PlaceOfHalf(size, q, k, r, x, d);
        RoundingStaysBetween(fl, x, d, k);
      }
    }
  }

  lemma RoundsHalfWay(fl: real -> real, p: int, q: int, size: int, k: int)
    requires RoundsToNearest(fl) && -TWO_TO_31 <= p <= TWO_TO_31 && 0 < q <= TWO_TO_31
    requires size == (if p < 0 then -p else p) && 2 * size + q == 2 * q * k
    ensures RoundedQuotient(fl, p, q) == if p < 0 then -k else k
  {
    hide RoundsToNearest;
    HalfWay(size, q, k);
    QuotientBounds(size, q, k);
    if p < 0 {
      QuotientOfNegative(size as real, q as real);
      assert p as real == -(size as real);
      assert p as real / q as real == (1 - 2 * k) as real / 2.0;
      HalvesAreExact(fl, 1 - 2 * k);
      IntegersAreExact(fl, -k);
    } else {
      HalvesAreExact(fl, 2 * k - 1);
      IntegersAreExact(fl, k);
    }
  }
}
