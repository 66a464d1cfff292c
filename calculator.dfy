/**
  The moving-average calculator of MovingAverageCalculatorImpl: an
  append-only history of decimals, a FIFO queue of the values inside the
  window, a running sum of that queue, and the settings window, scale and
  rounding mode. Exceptions of the Java class become `Failure` results; a
  Java `null` rounding mode is `None`.
 */
module MovingAverage {
  import opened Wrappers
  import opened Rounding
  import opened Decimals

  /** The exceptions the calculator can raise, with the argument that caused them. */
  datatype Error =
    | InvalidWindow(window: int)          // IllegalArgumentException from validateWindow
    | InvalidScale(scale: int)            // IllegalArgumentException from validateScale
    | NullRoundingMode                    // IllegalArgumentException from validateRoundingMode
    | UnnecessaryRoundingMode             // IllegalArgumentException from validateRoundingMode
    | IndexOutOfBounds                    // IndexOutOfBoundsException from get
    | NullPointer                         // NullPointerException inside BigDecimal arithmetic
    | Arithmetic                          // ArithmeticException from BigDecimal.divide

  datatype Result<T> = Success(value: T) | Failure(error: Error)

  /** The outcome of an operation that returns nothing in Java. */
  datatype Outcome = Pass | Fail(error: Error)

  const DefaultScale := 5
  const DefaultRoundingMode := HalfDown

  // Argument validation, as the constructors and setWindow perform it

  function ValidateWindow(window: int): (r: Option<Error>)
    ensures r.None? <==> window > 0
    ensures r.Some? ==> r.value == InvalidWindow(window)
  {
    if window <= 0 then Some(InvalidWindow(window)) else None
  }

  function ValidateScale(scale: int): (r: Option<Error>)
    ensures r.None? <==> scale >= 0
    ensures r.Some? ==> r.value == InvalidScale(scale)
  {
    if scale < 0 then Some(InvalidScale(scale)) else None
  }

  function ValidateRoundingMode(mode: Option<RoundingMode>): (r: Option<Error>)
    ensures r.None? <==> mode.Some? && mode.value != Unnecessary
    ensures mode.None? ==> r == Some(NullRoundingMode)
    ensures mode == Some(Unnecessary) ==> r == Some(UnnecessaryRoundingMode)
  {
    if mode.None? then Some(NullRoundingMode)
    else if mode.value == Unnecessary then Some(UnnecessaryRoundingMode)
    else None
  }

  // The window as a function of the history

  /** How many values the average is taken over: the window, or the whole history while it is shorter. */
  function WindowCount(size: int, window: int): (n: int)
    ensures n == size || n == window
    ensures n <= size && n <= window
    ensures size > 0 && window > 0 ==> n > 0
  {
    if size >= window then window else size
  }

  /** Index of the first history element inside the window. */
  function WindowStart(size: nat, window: int): (i: nat)
    requires window > 0
    ensures i <= size
    ensures size - i == WindowCount(size, window)
  {
    if window < size then size - window else 0
  }

  /** The last min(window, |history|) values of the history, oldest first. */
  function LastWindow(history: seq<Decimal>, window: int): (w: seq<Decimal>)
    requires window > 0
    ensures |w| == WindowCount(|history|, window)
    ensures w == history[|history| - |w|..]
  {
    history[WindowStart(|history|, window)..]
  }

  /** The window of a longer history: one value more at the end, and one less at the front once the window was full. */
  lemma LastWindowAppend(history: seq<Decimal>, x: Decimal, window: int)
    requires window > 0
    ensures LastWindow(history + [x], window)
         == (if |history| >= window then LastWindow(history, window)[1..] else LastWindow(history, window)) + [x]
  {
    var h := history + [x];
    if |history| >= window {
      assert h[|h| - window..] == history[|history| - window..][1..] + [x];
    } else {
      assert h[0..] == history[0..] + [x];
    }
  }

  /** The window of a non-empty history is never empty, and a full window holds exactly `window` values. */
  lemma LastWindowEmpty(history: seq<Decimal>, window: int)
    requires window > 0
    ensures LastWindow(history, window) == [] <==> history == []
    ensures |history| >= window ==> |LastWindow(history, window)| == window
  {
  }

  /**
    The queue holds exactly the last min(window, |history|) values and the
    running sum is their exact sum.
   */
  ghost predicate Tracks(history: seq<Decimal>, window: int, queue: seq<Decimal>, sum: Decimal)
    requires window > 0
  {
    queue == LastWindow(history, window) && Value(sum) == Total(queue)
  }

  /**
    One `add` step preserves the correspondence between history, queue and
    sum: when the history already held `window` values the queue is not
    empty, so the poll finds the oldest windowed value, and after subtracting
    it and adding the new one the queue and sum describe the new window.
   */
  lemma AddKeepsTracking(history: seq<Decimal>, window: int, queue: seq<Decimal>, sum: Decimal, x: Decimal)
    requires window > 0 && Tracks(history, window, queue, sum)
    ensures |history| >= window ==> queue != []
    ensures var full := |history| >= window;
      Tracks(history + [x], window,
             (if full then queue[1..] else queue) + [x],
             Add(if full then Subtract(sum, queue[0]) else sum, x))
  {
    LastWindowAppend(history, x, window);
    LastWindowEmpty(history, window);
    if |history| >= window {
      TotalDropFirst(queue);
      TotalAppend(queue[1..], x);
    } else {
      TotalAppend(queue, x);
    }
  }

  /**
    The state `setWindow` leaves behind, an empty queue beside the re-summed
    window, is a tracking state only while the history is empty.
   */
  lemma EmptyQueueTracksOnlyEmptyHistory(history: seq<Decimal>, window: int, sum: Decimal)
    requires window > 0 && Value(sum) == Total(LastWindow(history, window))
    ensures Tracks(history, window, [], sum) <==> history == []
  {
    LastWindowEmpty(history, window);
  }

  /**
    How far the running sum is from the exact sum of the queue: zero in a
    tracking state, and the whole re-summed window right after setWindow
    has emptied the queue.
   */
  ghost function Drift(sum: Decimal, queue: seq<Decimal>): real {
    Value(sum) - Total(queue)
  }

  /**
    One `add` step that finds a value to poll whenever it needs one keeps the
    drift: the value polled leaves both the queue and the sum, and the value
    added enters both. So the drift setWindow leaves behind is never worked
    off by later adds.
   */
  lemma AddKeepsDrift(queue: seq<Decimal>, sum: Decimal, x: Decimal, full: bool)
    requires full ==> queue != []
    ensures Drift(Add(if full then Subtract(sum, queue[0]) else sum, x),
                  (if full then queue[1..] else queue) + [x])
         == Drift(sum, queue)
  {
    if full {
      TotalDropFirst(queue);
      TotalAppend(queue[1..], x);
    } else {
      TotalAppend(queue, x);
    }
  }

  /** `suffix` is what remains of `s` after dropping some prefix. */
  ghost predicate IsSuffix(suffix: seq<Decimal>, s: seq<Decimal>) {
    |suffix| <= |s| && suffix == s[|s| - |suffix|..]
  }

  class MovingAverageCalculator {
    /** All values ever added, in order (an ArrayList in Java). */
    var elements: seq<Decimal>
    /** The window size. */
    var window: int
    /** The FIFO queue of values inside the window (a LinkedList in Java). */
    var windowElements: seq<Decimal>
    /** The number of fractional digits of the average. */
    var scale: int
    /** The rounding mode of the average; None is a Java null. */
    var roundingMode: Option<RoundingMode>
    /** The running sum of the values inside the window. */
    var windowSum: Decimal

    /**
      What every reachable state satisfies, including those after setWindow:
      a positive window, a queue that is a suffix of the history and no
      longer than the window, and a zero sum while nothing was added.
     */
    ghost predicate Valid()
      reads this
    {
      && window > 0
      && IsSuffix(windowElements, elements)
      && |windowElements| <= window
      && (elements == [] ==> windowSum == Zero)
    }

    /**
      The invariant of the class comment (MovingAverageCalculatorImpl.java:34-40):
      the queue is the window of the history and the sum is its exact sum.
     */
    ghost predicate Healthy()
      reads this
      requires window > 0
    {
      Tracks(elements, window, windowElements, windowSum)
    }

    /** The state every Java constructor establishes once its arguments pass validation. */
    constructor (window: int, scale: int, roundingMode: RoundingMode)
      requires ValidateWindow(window).None? && ValidateScale(scale).None?
      requires ValidateRoundingMode(Some(roundingMode)).None?
      ensures Valid() && Healthy()
      ensures this.elements == [] && this.windowElements == [] && this.windowSum == Zero
      ensures this.window == window && this.scale == scale && this.roundingMode == Some(roundingMode)
    {
      this.elements := [];
      this.window := window;
      this.windowElements := [];
      this.scale := scale;
      this.roundingMode := Some(roundingMode);
      this.windowSum := Zero;
    }

    /** new MovingAverageCalculatorImpl(window): the default scale 5 and HALF_DOWN. */
    static method Create(window: int) returns (r: Result<MovingAverageCalculator>)
      ensures r.Failure? <==> window <= 0
      ensures r.Failure? ==> r.error == InvalidWindow(window)
      ensures r.Success? ==> fresh(r.value) && r.value.Valid() && r.value.Healthy()
      ensures r.Success? ==> r.value.elements == [] && r.value.window == window
      ensures r.Success? ==> r.value.scale == DefaultScale && r.value.roundingMode == Some(DefaultRoundingMode)
    {
      var e := ValidateWindow(window);
      if e.Some? {
        return Failure(e.value);
      }
      var c := new MovingAverageCalculator(window, DefaultScale, DefaultRoundingMode);
      return Success(c);
    }

    /** new MovingAverageCalculatorImpl(window, scale): the window is checked first, then the scale. */
    static method CreateWithScale(window: int, scale: int) returns (r: Result<MovingAverageCalculator>)
      ensures r.Failure? <==> window <= 0 || scale < 0
      ensures window <= 0 ==> r == Failure(InvalidWindow(window))
      ensures window > 0 && scale < 0 ==> r == Failure(InvalidScale(scale))
      ensures r.Success? ==> fresh(r.value) && r.value.Valid() && r.value.Healthy()
      ensures r.Success? ==> r.value.elements == [] && r.value.window == window
      ensures r.Success? ==> r.value.scale == scale && r.value.roundingMode == Some(DefaultRoundingMode)
    {
      var e := ValidateWindow(window);
      if e.Some? {
        return Failure(e.value);
      }
      e := ValidateScale(scale);
      if e.Some? {
        return Failure(e.value);
      }
      var c := new MovingAverageCalculator(window, scale, DefaultRoundingMode);
      return Success(c);
    }

    /** new MovingAverageCalculatorImpl(window, roundingMode): the window is checked first, then the mode. */
    static method CreateWithRoundingMode(window: int, mode: Option<RoundingMode>) returns (r: Result<MovingAverageCalculator>)
      ensures r.Failure? <==> window <= 0 || mode.None? || mode == Some(Unnecessary)
      ensures window <= 0 ==> r == Failure(InvalidWindow(window))
      ensures window > 0 && mode.None? ==> r == Failure(NullRoundingMode)
      ensures window > 0 && mode == Some(Unnecessary) ==> r == Failure(UnnecessaryRoundingMode)
      ensures r.Success? ==> fresh(r.value) && r.value.Valid() && r.value.Healthy()
      ensures r.Success? ==> r.value.elements == [] && r.value.window == window
      ensures r.Success? ==> r.value.scale == DefaultScale && r.value.roundingMode == mode
    {
      var e := ValidateWindow(window);
      if e.Some? {
        return Failure(e.value);
      }
      e := ValidateRoundingMode(mode);
      if e.Some? {
        return Failure(e.value);
      }
      var c := new MovingAverageCalculator(window, DefaultScale, mode.value);
      return Success(c);
    }

    /** new MovingAverageCalculatorImpl(window, scale, roundingMode): window, then scale, then mode. */
    static method CreateWithScaleAndRoundingMode(window: int, scale: int, mode: Option<RoundingMode>)
      returns (r: Result<MovingAverageCalculator>)
      ensures r.Failure? <==> window <= 0 || scale < 0 || mode.None? || mode == Some(Unnecessary)
      ensures window <= 0 ==> r == Failure(InvalidWindow(window))
      ensures window > 0 && scale < 0 ==> r == Failure(InvalidScale(scale))
      ensures window > 0 && scale >= 0 && mode.None? ==> r == Failure(NullRoundingMode)
      ensures window > 0 && scale >= 0 && mode == Some(Unnecessary) ==> r == Failure(UnnecessaryRoundingMode)
      ensures r.Success? ==> fresh(r.value) && r.value.Valid() && r.value.Healthy()
      ensures r.Success? ==> r.value.elements == [] && r.value.window == window
      ensures r.Success? ==> r.value.scale == scale && r.value.roundingMode == mode
    {
      var e := ValidateWindow(window);
      if e.Some? {
        return Failure(e.value);
      }
      e := ValidateScale(scale);
      if e.Some? {
        return Failure(e.value);
      }
      e := ValidateRoundingMode(mode);
      if e.Some? {
        return Failure(e.value);
      }
      var c := new MovingAverageCalculator(window, scale, mode.value);
      return Success(c);
    }

    /**
      add(element). Once the history holds `window` values, the oldest queued
      value is polled and subtracted first; on an empty queue the poll yields
      null and the subtraction throws before anything changes. Then the value
      is appended to the history and the queue and added to the sum.
     */
    method Add(element: Decimal) returns (r: Outcome)
      requires Valid()
      modifies this
      ensures Valid()
      ensures r.Fail? <==> old(|elements| >= window && windowElements == [])
      ensures r.Fail? ==> r.error == NullPointer && unchanged(this)
      ensures r.Pass? ==> elements == old(elements) + [element]
      ensures r.Pass? ==>
        windowElements == (if old(|elements| >= window) then old(windowElements[1..]) else old(windowElements)) + [element]
      ensures r.Pass? ==>
        var polled := if old(|elements| >= window) then Subtract(old(windowSum), old(windowElements[0])) else old(windowSum);
        windowSum == Decimals.Add(polled, element)
      ensures window == old(window) && scale == old(scale) && roundingMode == old(roundingMode)
      ensures old(Healthy()) ==> r.Pass? && Healthy()
    {
      ghost var oldElements, oldQueue, oldSum := elements, windowElements, windowSum;
      if |elements| >= window {
        if windowElements == [] {
          return Fail(NullPointer);
        }
        windowSum := Subtract(windowSum, windowElements[0]);
        windowElements := windowElements[1..];
      }
      elements := elements + [element];
      windowElements := windowElements + [element];
      windowSum := Decimals.Add(windowSum, element);
      if Tracks(oldElements, window, oldQueue, oldSum) {
        AddKeepsTracking(oldElements, window, oldQueue, oldSum, element);
      }
      return Pass;
    }

    /**
      movingAverage(). Zero at `scale` digits on an empty history; otherwise
      the running sum divided by min(window, size) and rounded to `scale`
      fractional digits. A null rounding mode makes the division throw a
      NullPointerException and UNNECESSARY an ArithmeticException when the
      quotient is inexact.
     */
    method MovingAverage() returns (r: Result<Decimal>)
      requires Valid()
      ensures r.Success? ==> r.value.scale == scale
      ensures elements == [] ==> r == Success(Decimal(0, scale))
      ensures elements != [] && roundingMode.None? ==> r == Failure(NullPointer)
      ensures r.Failure? ==> elements != [] && (r.error == NullPointer || r.error == Arithmetic)
      ensures r.Failure? && r.error == NullPointer ==> roundingMode.None?
      ensures r.Failure? && r.error == Arithmetic ==>
        roundingMode == Some(Unnecessary) &&
        !IsWhole(InUnits(Value(windowSum) / WindowCount(|elements|, window) as real, scale))
      ensures elements != [] && roundingMode.Some? && roundingMode.value != Unnecessary ==> r.Success?
      ensures elements != [] && roundingMode.Some? ==>
        (IsWhole(InUnits(Value(windowSum) / WindowCount(|elements|, window) as real, scale)) ==> r.Success?)
      ensures elements != [] && r.Success? ==>
        IsRounding(r.value.unscaled,
                   InUnits(Value(windowSum) / WindowCount(|elements|, window) as real, scale),
                   roundingMode.value)
      ensures elements != [] && r.Success? && Healthy() ==>
        var w := LastWindow(elements, window);
        IsRounding(r.value.unscaled, InUnits(Total(w) / |w| as real, scale), roundingMode.value)
    {
      if elements != [] {
        var count := WindowCount(|elements|, window);
        if roundingMode.None? {
          return Failure(NullPointer);
        }
        var q := DivideByCount(windowSum, count, scale, roundingMode.value);
        if q.None? {
          return Failure(Arithmetic);
        }
        return Success(q.value);
      } else {
        var z := Decimals.SetScale(windowSum, scale);
        return Success(z.value);
      }
    }

    /** size(): the number of values added so far. */
    method Size() returns (n: int)
      ensures n == |elements|
    {
      return |elements|;
    }

    /** isEmpty(): true exactly when nothing was added. */
    method IsEmpty() returns (b: bool)
      ensures b <==> |elements| == 0
    {
      return elements == [];
    }

    /** get(index): the value added index-th, unrounded; IndexOutOfBoundsException outside 0..size-1. */
    method Get(index: int) returns (r: Result<Decimal>)
      ensures r.Success? <==> 0 <= index < |elements|
      ensures r.Success? ==> r.value == elements[index]
      ensures r.Failure? ==> r.error == IndexOutOfBounds
    {
      if index < 0 || index >= |elements| {
        return Failure(IndexOutOfBounds);
      }
      return Success(elements[index]);
    }

    /**
      getAll(): the whole history, in insertion order. The Java method returns
      the live ArrayList (MovingAverageCalculatorImpl.java:253), so a caller
      sees later adds through it; here the result is a snapshot value.
     */
    method GetAll() returns (s: seq<Decimal>)
      ensures s == elements
    {
      return elements;
    }

    method GetScale() returns (s: int)
      ensures s == scale
    {
      return scale;
    }

    method GetRoundingMode() returns (m: Option<RoundingMode>)
      ensures m == roundingMode
    {
      return roundingMode;
    }

    method GetWindow() returns (w: int)
      ensures w == window
    {
      return window;
    }

    /** setScale(scale): assigned as given, with no validation. */
    method SetScale(scale: int)
      requires Valid()
      modifies this
      ensures Valid()
      ensures this.scale == scale
      ensures elements == old(elements) && windowElements == old(windowElements) && windowSum == old(windowSum)
      ensures window == old(window) && roundingMode == old(roundingMode)
    {
      this.scale := scale;
    }

    /**
      setScale with the validation the constructors perform: a negative
      scale is refused and nothing changes.
     */
    method SetScaleChecked(scale: int) returns (r: Outcome)
      requires Valid()
      modifies this
      ensures Valid()
      ensures r.Fail? <==> scale < 0
      ensures r.Fail? ==> r.error == InvalidScale(scale) && unchanged(this)
      ensures r.Pass? ==> this.scale == scale
      ensures elements == old(elements) && windowElements == old(windowElements) && windowSum == old(windowSum)
      ensures window == old(window) && roundingMode == old(roundingMode)
    {
      var e := ValidateScale(scale);
      if e.Some? {
        return Fail(e.value);
      }
      this.scale := scale;
      return Pass;
    }

    /** setRoundingMode(roundingMode): assigned as given, with no validation, so null and UNNECESSARY are accepted. */
    method SetRoundingMode(mode: Option<RoundingMode>)
      requires Valid()
      modifies this
      ensures Valid()
      ensures roundingMode == mode
      ensures elements == old(elements) && windowElements == old(windowElements) && windowSum == old(windowSum)
      ensures window == old(window) && scale == old(scale)
    {
      roundingMode := mode;
    }

    /**
      setRoundingMode with the validation the constructors perform: a null or
      UNNECESSARY mode is refused and nothing changes.
     */
    method SetRoundingModeChecked(mode: Option<RoundingMode>) returns (r: Outcome)
      requires Valid()
      modifies this
      ensures Valid()
      ensures r.Fail? <==> ValidateRoundingMode(mode).Some?
      ensures r.Fail? ==> r.error == ValidateRoundingMode(mode).value && unchanged(this)
      ensures r.Pass? ==> roundingMode == mode
      ensures elements == old(elements) && windowElements == old(windowElements) && windowSum == old(windowSum)
      ensures window == old(window) && scale == old(scale)
    {
      var e := ValidateRoundingMode(mode);
      if e.Some? {
        return Fail(e.value);
      }
      roundingMode := mode;
      return Pass;
    }

    /**
      setWindow(window). A non-positive window is refused before anything
      changes. Otherwise the window is replaced, the queue is cleared and the
      sum is recomputed over the last min(window, size) values of the
      history; the queue is not refilled.
     */
    method SetWindow(window: int) returns (r: Outcome)
      requires Valid()
      modifies this
      ensures Valid()
      ensures r.Fail? <==> window <= 0
      ensures r.Fail? ==> r.error == InvalidWindow(window) && unchanged(this)
      ensures r.Pass? ==> this.window == window && windowElements == []
      ensures r.Pass? ==> windowSum == Sum(LastWindow(elements, window))
      ensures r.Pass? ==> Value(windowSum) == Total(LastWindow(elements, window))
      ensures r.Pass? ==> (Healthy() <==> elements == [])
      ensures elements == old(elements) && scale == old(scale) && roundingMode == old(roundingMode)
    {
      var e := ValidateWindow(window);
      if e.Some? {
        return Fail(e.value);
      }
      this.window := window;
      windowElements := [];
      windowSum := Zero;
      var start := WindowStart(|elements|, window);
      var i := start;
      while i < |elements|
        invariant start <= i <= |elements|
        invariant windowSum == Sum(elements[start..i])
        invariant this.window == window && windowElements == []
        invariant elements == old(elements) && scale == old(scale) && roundingMode == old(roundingMode)
      {
        assert elements[start..i + 1] == elements[start..i] + [elements[i]];
        windowSum := Decimals.Add(windowSum, elements[i]);
        i := i + 1;
      }
      assert elements[start..i] == LastWindow(elements, window);
      EmptyQueueTracksOnlyEmptyHistory(elements, window, windowSum);
      return Pass;
    }

    /**
      setWindow as its own comment describes it: the values inside the new
      window are queued again while they are re-summed, so the queue and the
      sum describe the new window.
     */
    method SetWindowRefilled(window: int) returns (r: Outcome)
      requires Valid()
      modifies this
      ensures Valid()
      ensures r.Fail? <==> window <= 0
      ensures r.Fail? ==> r.error == InvalidWindow(window) && unchanged(this)
      ensures r.Pass? ==> this.window == window && windowElements == LastWindow(elements, window)
      ensures r.Pass? ==> windowSum == Sum(LastWindow(elements, window))
      ensures r.Pass? ==> Healthy()
      ensures elements == old(elements) && scale == old(scale) && roundingMode == old(roundingMode)
    {
      var e := ValidateWindow(window);
      if e.Some? {
        return Fail(e.value);
      }
      this.window := window;
      windowElements := [];
      windowSum := Zero;
      var start := WindowStart(|elements|, window);
      var i := start;
      while i < |elements|
        invariant start <= i <= |elements|
        invariant windowSum == Sum(elements[start..i])
        invariant windowElements == elements[start..i]
        invariant this.window == window
        invariant elements == old(elements) && scale == old(scale) && roundingMode == old(roundingMode)
      {
        assert elements[start..i + 1] == elements[start..i] + [elements[i]];
        windowSum := Decimals.Add(windowSum, elements[i]);
        windowElements := windowElements + [elements[i]];
        i := i + 1;
      }
      assert elements[start..i] == LastWindow(elements, window);
      return Pass;
    }
  }
}
