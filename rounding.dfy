/**
  Rounding of an exact quotient to an integer, as java.math.RoundingMode
  describes it. The calculator only ever rounds one quantity: the exact mean
  expressed in units of 10^(-scale). `IsRounding` states what each mode
  promises of its result; `Round` computes it from an integer fraction.
 */
module Rounding {
  import opened Wrappers

  /** The eight constants of java.math.RoundingMode. */
  datatype RoundingMode = Up | Down | Ceiling | Floor | HalfUp | HalfDown | HalfEven | Unnecessary

  /** k is the largest integer not above x. */
  ghost predicate IsFloorOf(k: int, x: real) {
    k as real <= x < k as real + 1.0
  }

  /** k is the smallest integer not below x. */
  ghost predicate IsCeilingOf(k: int, x: real) {
    k as real - 1.0 < x <= k as real
  }

  /** k is at distance at most one half from x. */
  ghost predicate IsNearest(k: int, x: real) {
    -0.5 <= x - k as real <= 0.5
  }

  /** x lies exactly half way between k and one of k's neighbours. */
  ghost predicate IsTie(k: int, x: real) {
    x - k as real == 0.5 || x - k as real == -0.5
  }

  /** k is x rounded to an integer under `mode`. */
  ghost predicate IsRounding(k: int, x: real, mode: RoundingMode) {
    match mode
    case Up => if x >= 0.0 then IsCeilingOf(k, x) else IsFloorOf(k, x)
    case Down => if x >= 0.0 then IsFloorOf(k, x) else IsCeilingOf(k, x)
    case Ceiling => IsCeilingOf(k, x)
    case Floor => IsFloorOf(k, x)
    case HalfUp =>
      IsNearest(k, x) && (IsTie(k, x) ==> if x >= 0.0 then k as real > x else k as real < x)
    case HalfDown =>
      IsNearest(k, x) && (IsTie(k, x) ==> if x >= 0.0 then k as real < x else k as real > x)
    case HalfEven =>
      IsNearest(k, x) && (IsTie(k, x) ==> k % 2 == 0)
    case Unnecessary => k as real == x
  }

  /**
    num / den rounded under `mode`; None is the ArithmeticException that
    Unnecessary raises on an inexact quotient. The quotient is split into
    its floor and the remainder, and the remainder decides between the floor
    and the floor plus one.
   */
  function Round(num: int, den: int, mode: RoundingMode): (r: Option<int>)
    requires den > 0
    ensures r.Some? ==> IsRounding(r.value, num as real / den as real, mode)
    ensures r.None? <==> mode == Unnecessary && num % den != 0
  {
    QuotientParts(num, den);
    var f, rem := num / den, num % den;
    if rem == 0 then Some(f)
    else match mode
      case Up => Some(if num >= 0 then f + 1 else f)
      case Down => Some(if num >= 0 then f else f + 1)
      case Ceiling => Some(f + 1)
      case Floor => Some(f)
      case HalfUp => Some(if 2 * rem > den || (2 * rem == den && num >= 0) then f + 1 else f)
      case HalfDown => Some(if 2 * rem > den || (2 * rem == den && num < 0) then f + 1 else f)
      case HalfEven => Some(if 2 * rem > den || (2 * rem == den && f % 2 != 0) then f + 1 else f)
      case Unnecessary => None
  }

  /** The real quotient num / den is its integer floor plus a fraction in [0, 1) that the remainder determines. */
  lemma QuotientParts(num: int, den: int)
    requires den > 0
    ensures var x, f, rem := num as real / den as real, num / den, num % den;
      && f as real <= x < f as real + 1.0
      && (rem == 0 <==> x == f as real)
      && (2 * rem > den <==> x - f as real > 0.5)
      && (2 * rem == den <==> x - f as real == 0.5)
      && (num >= 0 <==> x >= 0.0)
  {
    var f, rem := num / den, num % den;
    var x := num as real / den as real;
    FloorPlusFraction(num, den);
    FractionOfDivisor(rem, den);
    SignOfQuotient(num, den);
  }

  /** num / den over the reals is the Euclidean quotient plus the remainder over den. */
  lemma FloorPlusFraction(num: int, den: int)
    requires den > 0
    ensures num as real / den as real == (num / den) as real + (num % den) as real / den as real
  {
    var f, rem := num / den, num % den;
    assert num == f * den + rem;
    assert (f * den + rem) as real == f as real * den as real + rem as real;
  }

  /** rem / den for a Euclidean remainder rem lies in [0, 1) and compares to one half as 2 * rem compares to den. */
  lemma FractionOfDivisor(rem: int, den: int)
    requires 0 <= rem < den
    ensures var t := rem as real / den as real;
      && 0.0 <= t < 1.0
      && (rem == 0 <==> t == 0.0)
      && (2 * rem == den <==> t == 0.5)
      && (2 * rem > den <==> t > 0.5)
  {
    var d, t, r := den as real, rem as real / den as real, rem as real;
    assert t * d == r;
    if t > 0.5 {
      ProductAboveHalf(d, t, r);
    }
    if r > 0.5 * d {
      FactorAboveHalf(d, t, r);
    }
  }

  lemma ProductAboveHalf(d: real, t: real, r: real)
    requires 0.0 < d && t * d == r && t > 0.5
    ensures r > 0.5 * d
  {
  }

  lemma FactorAboveHalf(d: real, t: real, r: real)
    requires 0.0 < d && t * d == r && r > 0.5 * d
    ensures t > 0.5
  {
  }

  /** The Euclidean quotient by a positive divisor has the sign of the dividend. */
  lemma SignOfQuotient(num: int, den: int)
    requires den > 0
    ensures num >= 0 <==> num / den >= 0
  {
  }

  /** A rounding mode pins its result down: no two integers are both x rounded under the same mode. */
  lemma RoundingIsUnique(k1: int, k2: int, x: real, mode: RoundingMode)
    requires IsRounding(k1, x, mode) && IsRounding(k2, x, mode)
    ensures k1 == k2
  {
  }

  /** An integer quotient needs no rounding: every mode returns it unchanged. */
  lemma ExactQuotientIsKept(k: int, n: int, mode: RoundingMode)
    requires IsRounding(k, n as real, mode)
    ensures k == n
  {
  }
}
