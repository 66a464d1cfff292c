/**
  Concrete runs of the calculator, taken from the unit tests of
  MovingAverageCalculatorImpl, and the runs that show where setWindow
  departs from the class comment of MovingAverageCalculatorImpl.java
  (lines 34-40 and 71: windowElements holds the last window values) and
  where setScale and setRoundingMode accept what the constructors refuse.
  Each method states the outcome of its run; the proofs go through the
  contracts of the class alone.
 */
module Scenarios {
  import opened Wrappers
  import opened Rounding
  import opened Decimals
  import opened MovingAverage

  /**
    The rounding the calculator promises is unique: an average that rounds
    `sum / count` at `scale` digits under `mode` is the one DivideByCount
    computes.
   */
  lemma AverageIs(avg: int, sum: Decimal, count: int, scale: int, mode: RoundingMode, d: Decimal)
    requires count > 0
    requires IsRounding(avg, InUnits(Value(sum) / count as real, scale), mode)
    requires DivideByCount(sum, count, scale, mode) == Some(d)
    ensures avg == d.unscaled
  {
    RoundingIsUnique(avg, d.unscaled, InUnits(Value(sum) / count as real, scale), mode);
  }

  /**
    The average of a non-empty history under a usable rounding mode is the
    one DivideByCount computes from the running sum.
   */
  method AverageOf(c: MovingAverageCalculator, d: Decimal) returns (avg: Result<Decimal>)
    requires c.Valid() && c.elements != []
    requires c.roundingMode.Some? && c.roundingMode.value != Unnecessary
    requires DivideByCount(c.windowSum, WindowCount(|c.elements|, c.window), c.scale, c.roundingMode.value) == Some(d)
    ensures avg == Success(d)
  {
    avg := c.MovingAverage();
    AverageIs(avg.value.unscaled, c.windowSum, WindowCount(|c.elements|, c.window), c.scale, c.roundingMode.value, d);
  }

  /**
    An add on a state where the poll, if any, finds a value: it passes, and
    this is its effect on the history, the queue and the sum.
   */
  method Push(c: MovingAverageCalculator, x: Decimal)
    requires c.Valid() && !(|c.elements| >= c.window && c.windowElements == [])
    modifies c
    ensures c.Valid()
    ensures c.elements == old(c.elements) + [x]
    ensures c.windowElements
         == (if old(|c.elements| >= c.window) then old(c.windowElements[1..]) else old(c.windowElements)) + [x]
    ensures c.windowSum
         == Add(if old(|c.elements| >= c.window) then Subtract(old(c.windowSum), old(c.windowElements[0])) else old(c.windowSum), x)
    ensures c.window == old(c.window) && c.scale == old(c.scale) && c.roundingMode == old(c.roundingMode)
  {
    var o := c.Add(x);
  }

  /** The decimal sums of one, two and three values, folded from zero. */
  lemma SumsOfFew(a: Decimal, b: Decimal, d: Decimal)
    ensures Sum([a]) == Add(Zero, a)
    ensures Sum([a, b]) == Add(Add(Zero, a), b)
    ensures Sum([a, b, d]) == Add(Add(Add(Zero, a), b), d)
  {
    assert [a][..0] == [];
    assert [a, b][..1] == [a];
    assert [a, b, d][..2] == [a, b];
  }

  /** A fresh calculator with window 2 averages to 0.00000 (test_Constructor_With_WindowSize). */
  method EmptyAverage() returns (avg: Result<Decimal>)
    ensures avg == Success(Decimal(0, 5))
  {
    var created := MovingAverageCalculator.Create(2);
    var c := created.value;
    avg := c.MovingAverage();
  }

  /** Window 2 after 10, 10, 5: size 3, the last value is 5 and the average 7.50000 (test_Add). */
  method WindowOfTwo() returns (size: int, last: Result<Decimal>, avg: Result<Decimal>)
    ensures size == 3 && last == Success(Decimal(5, 0))
    ensures avg == Success(Decimal(750000, 5))
  {
    var created := MovingAverageCalculator.Create(2);
    var c := created.value;
    Push(c, Decimal(10, 0));
    assert c.elements == c.windowElements == [Decimal(10, 0)];
    Push(c, Decimal(10, 0));
    assert c.elements == c.windowElements == [Decimal(10, 0), Decimal(10, 0)];
    Push(c, Decimal(5, 0));
    assert c.elements == [Decimal(10, 0), Decimal(10, 0)] + [Decimal(5, 0)];
    size := c.Size();
    last := c.Get(2);
    assert c.windowSum == Decimal(15, 0);
    WholeQuotients();
    avg := AverageOf(c, Decimal(750000, 5));
  }

  /** HALF_DOWN at scale 5: 5.444449 twice averages to 5.44445 (test_Deafult_Scale_And_Rounding). */
  method DefaultRounding() returns (avg: Result<Decimal>)
    ensures avg == Success(Decimal(544445, 5))
  {
    var created := MovingAverageCalculator.Create(2);
    var c := created.value;
    Push(c, Decimal(5444449, 6));
    assert c.elements == c.windowElements == [Decimal(5444449, 6)];
    Push(c, Decimal(5444449, 6));
    DefaultRoundingArithmetic();
    avg := AverageOf(c, Decimal(544445, 5));
  }

  /** The sum and rounded quotient of the default-rounding run. */
  lemma DefaultRoundingArithmetic()
    ensures Add(Add(Zero, Decimal(5444449, 6)), Decimal(5444449, 6)) == Decimal(10888898, 6)
    ensures DivideByCount(Decimal(10888898, 6), 2, 5, HalfDown) == Some(Decimal(544445, 5))
  {
    assert Pow10(1) == 10;
    assert ScaledQuotient(Decimal(10888898, 6), 2, 5) == (10888898, 20);
    assert Round(10888898, 20, HalfDown) == Some(544445);
  }

  /** HALF_UP at scale 2: 5.445 and 5.440 average to 5.44 (test_Custom_Scale_And_Rounding). */
  method CustomRounding() returns (avg: Result<Decimal>)
    ensures avg == Success(Decimal(544, 2))
  {
    var created := MovingAverageCalculator.CreateWithScaleAndRoundingMode(2, 2, Some(HalfUp));
    var c := created.value;
    Push(c, Decimal(5445, 3));
    assert c.elements == c.windowElements == [Decimal(5445, 3)];
    Push(c, Decimal(5440, 3));
    CustomRoundingArithmetic();
    avg := AverageOf(c, Decimal(544, 2));
  }

  /** The sum and rounded quotient of the custom-rounding run. */
  lemma CustomRoundingArithmetic()
    ensures Add(Add(Zero, Decimal(5445, 3)), Decimal(5440, 3)) == Decimal(10885, 3)
    ensures DivideByCount(Decimal(10885, 3), 2, 2, HalfUp) == Some(Decimal(544, 2))
  {
    assert Pow10(1) == 10;
    assert ScaledQuotient(Decimal(10885, 3), 2, 2) == (10885, 20);
    assert Round(10885, 20, HalfUp) == Some(544);
  }

  /** Indices -1, 0 and 1 of an empty history are out of bounds (test_Get_Throws_Exception_When_IndexInvalid). */
  method GetOutOfBounds() returns (a: Result<Decimal>, b: Result<Decimal>, d: Result<Decimal>)
    ensures a == Failure(IndexOutOfBounds) && b == Failure(IndexOutOfBounds) && d == Failure(IndexOutOfBounds)
  {
    var created := MovingAverageCalculator.Create(2);
    var c := created.value;
    a := c.Get(-1);
    b := c.Get(0);
    d := c.Get(1);
  }

  /** Every constructor refuses its bad arguments (the constructor tests). */
  method RefusedArguments() returns (e1: Result<MovingAverageCalculator>, e2: Result<MovingAverageCalculator>,
                                     e3: Result<MovingAverageCalculator>, e4: Result<MovingAverageCalculator>)
    ensures e1 == Failure(InvalidWindow(-1))
    ensures e2 == Failure(InvalidScale(-1))
    ensures e3 == Failure(NullRoundingMode)
    ensures e4 == Failure(UnnecessaryRoundingMode)
  {
    e1 := MovingAverageCalculator.Create(-1);
    e2 := MovingAverageCalculator.CreateWithScale(3, -1);
    e3 := MovingAverageCalculator.CreateWithRoundingMode(3, None);
    e4 := MovingAverageCalculator.CreateWithScaleAndRoundingMode(3, 2, Some(Unnecessary));
  }

  /** Window 3 after 10, 10, 5: the queue holds all three values. */
  method TenTenFive() returns (c: MovingAverageCalculator)
    ensures fresh(c) && c.Valid()
    ensures c.window == 3 && c.scale == 5 && c.roundingMode == Some(HalfDown)
    ensures c.elements == [Decimal(10, 0), Decimal(10, 0), Decimal(5, 0)]
  {
    var created := MovingAverageCalculator.Create(3);
    c := created.value;
    Push(c, Decimal(10, 0));
    assert c.elements == [Decimal(10, 0)];
    Push(c, Decimal(10, 0));
    assert c.elements == [Decimal(10, 0), Decimal(10, 0)];
    Push(c, Decimal(5, 0));
    assert c.elements == [Decimal(10, 0), Decimal(10, 0)] + [Decimal(5, 0)];
  }

  /** Window 2 after 0, 10, 5: the queue holds the last two values. */
  method ZeroTenFive() returns (c: MovingAverageCalculator)
    ensures fresh(c) && c.Valid()
    ensures c.window == 2 && c.scale == 5 && c.roundingMode == Some(HalfDown)
    ensures c.elements == [Decimal(0, 0), Decimal(10, 0), Decimal(5, 0)]
  {
    var created := MovingAverageCalculator.Create(2);
    c := created.value;
    Push(c, Decimal(0, 0));
    assert c.elements == [Decimal(0, 0)];
    Push(c, Decimal(10, 0));
    assert c.elements == [Decimal(0, 0), Decimal(10, 0)];
    Push(c, Decimal(5, 0));
    assert c.elements == [Decimal(0, 0), Decimal(10, 0)] + [Decimal(5, 0)];
  }

  /** 10, 10, 5 after setWindow(2): an empty queue beside the sum 15 of the last two values. */
  method Shrunk() returns (c: MovingAverageCalculator)
    ensures fresh(c) && c.Valid()
    ensures c.window == 2 && c.scale == 5 && c.roundingMode == Some(HalfDown)
    ensures c.elements == [Decimal(10, 0), Decimal(10, 0), Decimal(5, 0)]
    ensures c.windowElements == [] && c.windowSum == Decimal(15, 0)
  {
    c := TenTenFive();
    var s := c.SetWindow(2);
    assert LastWindow(c.elements, 2) == [Decimal(10, 0), Decimal(5, 0)];
    SumsOfFew(Decimal(10, 0), Decimal(5, 0), Zero);
  }

  /** 10, 10, 5 after the refilling setWindow(2): the queue holds 10 and 5. */
  method ShrunkRefilled() returns (c: MovingAverageCalculator)
    ensures fresh(c) && c.Valid()
    ensures c.window == 2 && c.scale == 5 && c.roundingMode == Some(HalfDown)
    ensures c.elements == [Decimal(10, 0), Decimal(10, 0), Decimal(5, 0)]
    ensures c.windowElements == [Decimal(10, 0), Decimal(5, 0)] && c.windowSum == Decimal(15, 0)
  {
    c := TenTenFive();
    var s := c.SetWindowRefilled(2);
    assert LastWindow(c.elements, 2) == [Decimal(10, 0), Decimal(5, 0)];
    SumsOfFew(Decimal(10, 0), Decimal(5, 0), Zero);
  }

  /** 0, 10, 5 after setWindow(5): an empty queue beside the sum 15 of all three values. */
  method Grown() returns (c: MovingAverageCalculator)
    ensures fresh(c) && c.Valid()
    ensures c.window == 5 && c.scale == 5 && c.roundingMode == Some(HalfDown)
    ensures c.elements == [Decimal(0, 0), Decimal(10, 0), Decimal(5, 0)]
    ensures c.windowElements == [] && c.windowSum == Decimal(15, 0)
  {
    c := ZeroTenFive();
    var s := c.SetWindow(5);
    assert LastWindow(c.elements, 5) == c.elements;
    SumsOfFew(Decimal(0, 0), Decimal(10, 0), Decimal(5, 0));
  }

  /** 0, 10, 5 after the refilling setWindow(5): the queue holds all three values. */
  method GrownRefilled() returns (c: MovingAverageCalculator)
    ensures fresh(c) && c.Valid()
    ensures c.window == 5 && c.scale == 5 && c.roundingMode == Some(HalfDown)
    ensures c.elements == [Decimal(0, 0), Decimal(10, 0), Decimal(5, 0)]
    ensures c.windowElements == c.elements && c.windowSum == Decimal(15, 0)
  {
    c := ZeroTenFive();
    var s := c.SetWindowRefilled(5);
    assert LastWindow(c.elements, 5) == c.elements;
    SumsOfFew(Decimal(0, 0), Decimal(10, 0), Decimal(5, 0));
  }

  /** The rounded quotients of whole sums that the runs at the default settings divide out. */
  lemma WholeQuotients()
    ensures DivideByCount(Decimal(15, 0), 2, 5, HalfDown) == Some(Decimal(750000, 5))
    ensures DivideByCount(Decimal(15, 0), 3, 5, HalfDown) == Some(Decimal(500000, 5))
    ensures DivideByCount(Decimal(6, 0), 2, 5, HalfDown) == Some(Decimal(300000, 5))
    ensures DivideByCount(Decimal(23, 0), 5, 5, HalfDown) == Some(Decimal(460000, 5))
    ensures DivideByCount(Decimal(24, 0), 5, 5, HalfDown) == Some(Decimal(480000, 5))
    ensures DivideByCount(Decimal(10, 0), 1, 5, HalfDown) == Some(Decimal(1000000, 5))
  {
    assert Pow10(5) == 100000;
  }

  /** Window 3 after 10, 10, 5 and setWindow(2): the average is 7.50000 (test_Set_New_Window_LessThan_CurrentSize). */
  method ShrinkWindow() returns (avg: Result<Decimal>)
    ensures avg == Success(Decimal(750000, 5))
  {
    var c := Shrunk();
    WholeQuotients();
    avg := AverageOf(c, Decimal(750000, 5));
  }

  /** Window 2 after 0, 10, 5 and setWindow(5): the average is 5.00000 (test_Set_New_Window_GreaterThan_CurrentSize). */
  method GrowWindow() returns (avg: Result<Decimal>)
    ensures avg == Success(Decimal(500000, 5))
  {
    var c := Grown();
    WholeQuotients();
    avg := AverageOf(c, Decimal(500000, 5));
  }

  // Where setWindow, setScale and setRoundingMode depart from the class comment and the constructors

  /**
    setWindow leaves the queue empty, so after shrinking the window below the
    history's size the next add polls an empty queue and fails with a
    NullPointerException, and the history does not grow.
   */
  method ShrinkThenAdd() returns (o: Outcome, size: int)
    ensures o == Fail(NullPointer) && size == 3
  {
    var c := Shrunk();
    o := c.Add(Decimal(1, 0));
    size := c.Size();
  }

  /** With the queue refilled, the same run succeeds and averages the last two values 5 and 1 to 3.00000. */
  method ShrinkThenAddRefilled() returns (o: Outcome, avg: Result<Decimal>)
    ensures o == Pass && avg == Success(Decimal(300000, 5))
  {
    var c := ShrunkRefilled();
    o := c.Add(Decimal(1, 0));
    assert c.windowSum == Decimal(6, 0);
    WholeQuotients();
    avg := AverageOf(c, Decimal(300000, 5));
  }

  /**
    After growing the window from 2 to 5 over the history 0, 10, 5, adding
    1, 1 and 7 fills the window with 10, 5, 1, 1, 7, whose sum is 24, but the
    third add polls the 1 that entered the queue after the resize instead of
    the 0 that left the window, so the running sum is 23 and the average
    comes out as 4.60000 instead of 4.80000.
   */
  method GrowThenAdd() returns (avg: Result<Decimal>, window: seq<Decimal>)
    ensures avg == Success(Decimal(460000, 5))
    ensures window == [Decimal(10, 0), Decimal(5, 0), Decimal(1, 0), Decimal(1, 0), Decimal(7, 0)]
  {
    var c := GrownThenAdded();
    WholeQuotients();
    avg := AverageOf(c, Decimal(460000, 5));
    window := LastWindow(c.elements, 5);
  }

  /** The grown calculator after adding 1, 1 and 7: the third add polls the queued 1. */
  method GrownThenAdded() returns (c: MovingAverageCalculator)
    ensures fresh(c) && c.Valid()
    ensures c.window == 5 && c.scale == 5 && c.roundingMode == Some(HalfDown)
    ensures c.elements == [Decimal(0, 0), Decimal(10, 0), Decimal(5, 0), Decimal(1, 0), Decimal(1, 0), Decimal(7, 0)]
    ensures c.windowElements == [Decimal(1, 0), Decimal(7, 0)] && c.windowSum == Decimal(23, 0)
  {
    c := Grown();
    Push(c, Decimal(1, 0));
    assert c.elements == [Decimal(0, 0), Decimal(10, 0), Decimal(5, 0)] + [Decimal(1, 0)];
    assert c.windowElements == [Decimal(1, 0)] && c.windowSum == Decimal(16, 0);
    Push(c, Decimal(1, 0));
    assert c.elements == [Decimal(0, 0), Decimal(10, 0), Decimal(5, 0), Decimal(1, 0)] + [Decimal(1, 0)];
    assert c.windowElements == [Decimal(1, 0), Decimal(1, 0)] && c.windowSum == Decimal(17, 0);
    Push(c, Decimal(7, 0));
    assert c.elements == [Decimal(0, 0), Decimal(10, 0), Decimal(5, 0), Decimal(1, 0), Decimal(1, 0)] + [Decimal(7, 0)];
  }

  /** With the queue refilled, the same run averages the window 10, 5, 1, 1, 7 to 4.80000. */
  method GrowThenAddRefilled() returns (avg: Result<Decimal>)
    ensures avg == Success(Decimal(480000, 5))
  {
    var c := GrownRefilled();
    Push(c, Decimal(1, 0));
    assert c.elements == [Decimal(0, 0), Decimal(10, 0), Decimal(5, 0)] + [Decimal(1, 0)];
    assert c.windowElements == c.elements && c.windowSum == Decimal(16, 0);
    Push(c, Decimal(1, 0));
    assert c.elements == [Decimal(0, 0), Decimal(10, 0), Decimal(5, 0), Decimal(1, 0)] + [Decimal(1, 0)];
    assert c.windowElements == c.elements && c.windowSum == Decimal(17, 0);
    Push(c, Decimal(7, 0));
    assert c.windowSum == Decimal(24, 0);
    WholeQuotients();
    avg := AverageOf(c, Decimal(480000, 5));
  }

  /** setRoundingMode(null) is accepted, and the next average throws a NullPointerException. */
  method NullRoundingModeAccepted() returns (avg: Result<Decimal>)
    ensures avg == Failure(NullPointer)
  {
    var created := MovingAverageCalculator.Create(2);
    var c := created.value;
    Push(c, Decimal(10, 0));
    c.SetRoundingMode(None);
    avg := c.MovingAverage();
  }

  /** The validating setter refuses null and the average is still computed. */
  method NullRoundingModeRefused() returns (o: Outcome, avg: Result<Decimal>)
    ensures o == Fail(NullRoundingMode) && avg == Success(Decimal(1000000, 5))
  {
    var created := MovingAverageCalculator.Create(2);
    var c := created.value;
    Push(c, Decimal(10, 0));
    o := c.SetRoundingModeChecked(None);
    assert c.windowSum == Decimal(10, 0);
    WholeQuotients();
    avg := AverageOf(c, Decimal(1000000, 5));
  }

  /**
    setScale(-1) is accepted, and the next average of the single value 10
    comes out at scale -1, as 1 * 10^1.
   */
  method NegativeScaleAccepted() returns (avg: Result<Decimal>)
    ensures avg == Success(Decimal(1, -1))
  {
    var created := MovingAverageCalculator.Create(2);
    var c := created.value;
    Push(c, Decimal(10, 0));
    c.SetScale(-1);
    assert c.windowSum == Decimal(10, 0);
    ScaleArithmetic();
    avg := AverageOf(c, Decimal(1, -1));
  }

  /** The validating setter refuses -1 and the average keeps its five digits. */
  method NegativeScaleRefused() returns (o: Outcome, avg: Result<Decimal>)
    ensures o == Fail(InvalidScale(-1)) && avg == Success(Decimal(1000000, 5))
  {
    var created := MovingAverageCalculator.Create(2);
    var c := created.value;
    Push(c, Decimal(10, 0));
    o := c.SetScaleChecked(-1);
    assert c.windowSum == Decimal(10, 0);
    WholeQuotients();
    avg := AverageOf(c, Decimal(1000000, 5));
  }

  /** 10 divided by 1 at scale -1. */
  lemma ScaleArithmetic()
    ensures DivideByCount(Decimal(10, 0), 1, -1, HalfDown) == Some(Decimal(1, -1))
  {
    assert Pow10(1) == 10;
    assert ScaledQuotient(Decimal(10, 0), 1, -1) == (10, 10);
  }
}
