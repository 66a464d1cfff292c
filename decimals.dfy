/**
  The part of java.math.BigDecimal that the calculator uses: exact addition
  and subtraction, rescaling (setScale with one argument) and division by a
  positive count to a fixed scale under a rounding mode.

  A decimal is an unscaled integer and a scale, standing for
  unscaled * 10^(-scale). As with BigDecimal.equals, two decimals are equal
  only when both parts are: 2.0 and 2.00 are different values of the
  datatype with the same `Value`.
 */
module Decimals {
  import opened Wrappers
  import opened Rounding

  datatype Decimal = Decimal(unscaled: int, scale: int)

  /** BigDecimal.ZERO. */
  const Zero := Decimal(0, 0)

  function Max(a: int, b: int): (m: int)
    ensures m >= a && m >= b && (m == a || m == b)
  {
    if a >= b then a else b
  }

  function Pow10(e: nat): (p: nat)
    ensures p >= 1
  {
    if e == 0 then 1 else 10 * Pow10(e - 1)
  }

  /**
    x with its decimal point moved `places` digits to the left, that is
    x * 10^(-places); a negative `places` moves it to the right.
   */
  ghost function ShiftPoint(x: real, places: int): real
    decreases if places >= 0 then places else -places
  {
    if places == 0 then x
    else if places > 0 then ShiftPoint(x, places - 1) / 10.0
    else 10.0 * ShiftPoint(x, places + 1)
  }

  /** The number a decimal stands for: unscaled * 10^(-scale). */
  ghost function Value(d: Decimal): real {
    ShiftPoint(d.unscaled as real, d.scale)
  }

  /** x measured in units of 10^(-scale), that is x * 10^scale. */
  ghost function InUnits(x: real, scale: int): real {
    ShiftPoint(x, -scale)
  }

  /** x is a whole number. */
  ghost predicate IsWhole(x: real) {
    x.Floor as real == x
  }

  /** The exact sum of a sequence of decimals, first element first. */
  ghost function Total(s: seq<Decimal>): real {
    if s == [] then 0.0 else Value(s[0]) + Total(s[1..])
  }

  /** BigDecimal.add: the exact sum, at the larger of the two scales. */
  function Add(a: Decimal, b: Decimal): (r: Decimal)
    ensures r.scale == Max(a.scale, b.scale)
    ensures Value(r) == Value(a) + Value(b)
  {
    var m := Max(a.scale, b.scale);
    var x, y := a.unscaled * Pow10(m - a.scale), b.unscaled * Pow10(m - b.scale);
    RescalePreservesValue(a.unscaled, a.scale, m);
    RescalePreservesValue(b.unscaled, b.scale, m);
    ShiftAdd(x as real, y as real, m);
    Decimal(x + y, m)
  }

  /** BigDecimal.subtract: the exact difference, at the larger of the two scales. */
  function Subtract(a: Decimal, b: Decimal): (r: Decimal)
    ensures r.scale == Max(a.scale, b.scale)
    ensures Value(r) == Value(a) - Value(b)
  {
    var m := Max(a.scale, b.scale);
    var x, y := a.unscaled * Pow10(m - a.scale), b.unscaled * Pow10(m - b.scale);
    RescalePreservesValue(a.unscaled, a.scale, m);
    RescalePreservesValue(b.unscaled, b.scale, m);
    ShiftNegate(y as real, m);
    ShiftAdd(x as real, -(y as real), m);
    Decimal(x - y, m)
  }

  /**
    The decimal sum of a sequence accumulated from BigDecimal.ZERO, adding
    the elements in order; its scale is at least 0 and at least every
    element's scale.
   */
  function Sum(s: seq<Decimal>): (r: Decimal)
    ensures Value(r) == Total(s)
    ensures r.scale >= 0 && forall i :: 0 <= i < |s| ==> s[i].scale <= r.scale
  {
    if s == [] then Zero
    else
      var init, last := s[..|s| - 1], s[|s| - 1];
      assert s == init + [last];
      TotalAppend(init, last);
      Add(Sum(init), last)
  }

  /**
    BigDecimal.setScale with one argument: the same number at scale
    `newScale`, or None (the ArithmeticException) when that would drop
    non-zero digits. Zero can take every scale.
   */
  function SetScale(d: Decimal, newScale: int): (r: Option<Decimal>)
    ensures r.Some? ==> r.value.scale == newScale && Value(r.value) == Value(d)
    ensures r.None? <==> newScale < d.scale && !IsWhole(InUnits(Value(d), newScale))
    ensures d.unscaled == 0 ==> r == Some(Decimal(0, newScale))
  {
    if newScale >= d.scale then
      RescalePreservesValue(d.unscaled, d.scale, newScale);
      Some(Decimal(d.unscaled * Pow10(newScale - d.scale), newScale))
    else
      var p := Pow10(d.scale - newScale);
      if d.unscaled % p == 0 then
        var q := d.unscaled / p;
        assert d.unscaled == q * p;
        RescalePreservesValue(q, newScale, d.scale);
        ShiftTwice(q as real, newScale, -newScale, 0);
        Some(Decimal(q, newScale))
      else
        assert !IsWhole(InUnits(Value(d), newScale)) by {
          var x := InUnits(Value(d), newScale);
          ShiftTwice(d.unscaled as real, d.scale, -newScale, d.scale - newScale);
          ShiftIsQuotient(d.unscaled as real, d.scale - newScale);
          if IsWhole(x) {
            WholeQuotient(d.unscaled, p, x.Floor);
          }
        }
        None
  }

  /**
    The exact quotient Value(sum) / count measured in units of 10^(-scale),
    as an integer fraction with a positive denominator.
   */
  function ScaledQuotient(sum: Decimal, count: int, scale: int): (f: (int, int))
    requires count > 0
    ensures f.1 > 0
    ensures f.0 as real / f.1 as real == InUnits(Value(sum) / count as real, scale)
  {
    var u, s := sum.unscaled, sum.scale;
    ShiftDivide(Value(sum), count as real, -scale);
    if scale >= s then
      var num := u * Pow10(scale - s);
      QuotientScaledUp(sum, scale, num);
      (num, count)
    else
      var den := count * Pow10(s - scale);
      QuotientScaledDown(sum, count, scale, den);
      (u, den)
  }

  /**
    BigDecimal.divide(divisor, scale, roundingMode) for a divisor that is a
    positive whole count: the quotient rounded to exactly `scale` fractional
    digits; None is the ArithmeticException of Unnecessary on an inexact
    quotient.
   */
  function DivideByCount(sum: Decimal, count: int, scale: int, mode: RoundingMode): (r: Option<Decimal>)
    requires count > 0
    ensures r.Some? ==> r.value.scale == scale
    ensures r.Some? ==> IsRounding(r.value.unscaled, InUnits(Value(sum) / count as real, scale), mode)
    ensures r.None? ==> mode == Unnecessary && !IsWhole(InUnits(Value(sum) / count as real, scale))
  {
    var (num, den) := ScaledQuotient(sum, count, scale);
    match Round(num, den, mode)
    case None =>
      assert !IsWhole(InUnits(Value(sum) / count as real, scale)) by {
        var x := InUnits(Value(sum) / count as real, scale);
        if IsWhole(x) {
          WholeQuotient(num, den, x.Floor);
        }
      }
      None
    case Some(k) => Some(Decimal(k, scale))
  }

  /** An exact quotient never makes the division fail, not even under Unnecessary. */
  lemma ExactDivisionSucceeds(sum: Decimal, count: int, scale: int, mode: RoundingMode, k: int)
    requires count > 0
    requires k as real == InUnits(Value(sum) / count as real, scale)
    ensures DivideByCount(sum, count, scale, mode) == Some(Decimal(k, scale))
  {
    var (num, den) := ScaledQuotient(sum, count, scale);
    WholeQuotient(num, den, k);
    var r := Round(num, den, mode);
    assert r.Some?;
    ExactQuotientIsKept(r.value, k, mode);
  }

  /** A fraction equal to an integer k has a numerator divisible by the denominator. */
  lemma WholeQuotient(num: int, den: int, k: int)
    requires den > 0 && num as real / den as real == k as real
    ensures num == k * den && num % den == 0
  {
    var d := den as real;
    assert num as real == (num as real / d) * d;
    assert (k * den) as real == k as real * d;
  }

  // Sequences

  lemma {:induction false} TotalAppend(s: seq<Decimal>, x: Decimal)
    ensures Total(s + [x]) == Total(s) + Value(x)
  {
    if s != [] {
      assert (s + [x])[1..] == s[1..] + [x];
      TotalAppend(s[1..], x);
    }
  }

  /** Dropping the first element of a sequence takes exactly its value off the total. */
  lemma TotalDropFirst(s: seq<Decimal>)
    requires s != []
    ensures Total(s[1..]) == Total(s) - Value(s[0])
  {
  }

  // Moving the decimal point

  lemma ShiftStep(x: real, p: int, q: int)
    requires q == p - 1
    ensures ShiftPoint(x, q) == 10.0 * ShiftPoint(x, p)
  {
  }

  lemma {:induction false} ShiftAdd(x: real, y: real, p: int)
    ensures ShiftPoint(x + y, p) == ShiftPoint(x, p) + ShiftPoint(y, p)
    decreases if p >= 0 then p else -p
  {
    if p > 0 {
      ShiftAdd(x, y, p - 1);
    } else if p < 0 {
      ShiftAdd(x, y, p + 1);
    }
  }

  lemma {:induction false} ShiftNegate(x: real, p: int)
    ensures ShiftPoint(-x, p) == -ShiftPoint(x, p)
    decreases if p >= 0 then p else -p
  {
    if p > 0 {
      ShiftNegate(x, p - 1);
    } else if p < 0 {
      ShiftNegate(x, p + 1);
    }
  }

  lemma {:induction false} ShiftDivide(x: real, c: real, p: int)
    requires c > 0.0
    ensures ShiftPoint(x / c, p) == ShiftPoint(x, p) / c
    decreases if p >= 0 then p else -p
  {
    if p > 0 {
      ShiftDivide(x, c, p - 1);
      DivisionsCommute(ShiftPoint(x, p - 1), c, 10.0);
    } else if p < 0 {
      ShiftDivide(x, c, p + 1);
      ScalingCommutes(ShiftPoint(x, p + 1), c);
    }
  }

  /** Moving the point by p and then by q moves it by p + q. */
  lemma {:induction false} ShiftTwice(x: real, p: int, q: int, r: int)
    requires r == p + q
    ensures ShiftPoint(ShiftPoint(x, p), q) == ShiftPoint(x, r)
    decreases if q >= 0 then q else -q
  {
    var y := ShiftPoint(x, p);
    if q > 0 {
      ShiftTwice(x, p, q - 1, r - 1);
      ShiftStep(x, r, r - 1);
      ShiftStep(y, q, q - 1);
    } else if q < 0 {
      ShiftTwice(x, p, q + 1, r + 1);
      ShiftStep(x, r + 1, r);
      ShiftStep(y, q + 1, q);
    }
  }

  /** Moving the point of an integer k digits to the right multiplies it by 10^k. */
  lemma {:induction false} ShiftInteger(u: int, k: nat, j: int)
    requires j + k == 0
    ensures ShiftPoint(u as real, j) == (u * Pow10(k)) as real
    decreases k
  {
    if k > 0 {
      ShiftInteger(u, k - 1, j + 1);
      TimesTen(u, Pow10(k - 1), Pow10(k));
    }
  }

  /** Moving the point of x k digits to the left divides it by 10^k. */
  lemma ShiftIsQuotient(x: real, k: nat)
    ensures ShiftPoint(x, k) == x / Pow10(k) as real
  {
    var y := ShiftPoint(x, k);
    ShiftIsProduct(y, k, -(k as int));
    ShiftTwice(x, k, -(k as int), 0);
    UndoProduct(y, Pow10(k) as real, x);
  }

  lemma UndoProduct(y: real, p: real, x: real)
    requires p > 0.0 && y * p == x
    ensures y == x / p
  {
  }

  /** Moving the point of x k digits to the right multiplies it by 10^k. */
  lemma {:induction false} ShiftIsProduct(x: real, k: nat, j: int)
    requires j + k == 0
    ensures ShiftPoint(x, j) == x * Pow10(k) as real
    decreases k
  {
    if k > 0 {
      ShiftIsProduct(x, k - 1, j + 1);
      ScaleStep(ShiftPoint(x, j), ShiftPoint(x, j + 1), x, Pow10(k) as real, Pow10(k - 1) as real);
    }
  }

  // Values

  /** Multiplying the unscaled value by 10^(m - s) while raising the scale from s to m keeps the number. */
  lemma RescalePreservesValue(u: int, s: int, m: int)
    requires s <= m
    ensures Value(Decimal(u * Pow10(m - s), m)) == Value(Decimal(u, s))
  {
    ShiftInteger(u, m - s, s - m);
    ShiftTwice(u as real, s - m, m, s);
  }

  /** The exact quotient in units of 10^(-scale) when the target scale is at least the sum's scale. */
  lemma QuotientScaledUp(sum: Decimal, scale: int, num: int)
    requires scale >= sum.scale
    requires num == sum.unscaled * Pow10(scale - sum.scale)
    ensures num as real == ShiftPoint(Value(sum), -scale)
  {
    ShiftInteger(sum.unscaled, scale - sum.scale, sum.scale - scale);
    ShiftTwice(sum.unscaled as real, sum.scale, -scale, sum.scale - scale);
  }

  /** The exact quotient in units of 10^(-scale) when the target scale is below the sum's scale. */
  lemma QuotientScaledDown(sum: Decimal, count: int, scale: int, den: int)
    requires scale < sum.scale && count > 0
    requires den == count * Pow10(sum.scale - scale)
    ensures sum.unscaled as real / den as real == ShiftPoint(Value(sum), -scale) / count as real
  {
    var u, k := sum.unscaled as real, sum.scale - scale;
    var w := ShiftPoint(u, k);
    ShiftTwice(u, sum.scale, -scale, k);
    ShiftIsProduct(w, k, -k);
    ShiftTwice(u, k, -k, 0);
    CastScale(count, Pow10(k), Pow10(k) as real);
    DivideBoth(u, den as real, w, Pow10(k) as real, count as real);
  }

  // Real arithmetic, kept in small contexts

  lemma TimesTen(u: int, p: int, q: int)
    requires q == 10 * p
    ensures (u * q) as real == 10.0 * (u * p) as real
  {
  }

  lemma ScaleStep(a: real, b: real, x: real, p: real, q: real)
    requires a == 10.0 * b && p == 10.0 * q && b == x * q
    ensures a == x * p
  {
  }

  lemma DivisionsCommute(x: real, c: real, t: real)
    requires c > 0.0 && t > 0.0
    ensures (x / c) / t == (x / t) / c
  {
  }

  lemma ScalingCommutes(x: real, c: real)
    requires c > 0.0
    ensures 10.0 * (x / c) == (10.0 * x) / c
  {
  }

  lemma CastScale(u: int, p: int, r: real)
    requires p as real == r
    ensures (u * p) as real == u as real * r
  {
  }

  /** u / d == w / c when u == w p and d == c p. */
  lemma DivideBoth(u: real, d: real, w: real, p: real, c: real)
    requires u == w * p && d == c * p && c > 0.0 && p > 0.0
    ensures u / d == w / c
  {
  }
}
