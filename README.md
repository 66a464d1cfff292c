# Moving average calculator

A Dafny model of `MovingAverageCalculatorImpl`, the moving-average accumulator of the
SDEChallenge repository. The calculator keeps four pieces of state:

- the append-only history of every value added;
- a FIFO queue of the values inside the window;
- a running sum of those values;
- the window size, the scale (fractional digits of the result) and the rounding mode.

`add` updates the sum in constant time. It polls the oldest queued value once the history
already holds `window` values. `movingAverage` divides the sum by `min(window, size)` and
rounds it to `scale` digits. `setWindow` re-sums the last `min(window, size)` values.

The files:

- `wrappers.dfy`: `Option`.
- `rounding.dfy`: the eight `java.math.RoundingMode` constants.
  - `IsRounding` says what each mode promises of an integer rounding of a real number.
  - `Round` computes it from an integer quotient and remainder.
- `decimals.dfy`: a `BigDecimal` as an unscaled integer and a scale.
  - `Value` gives its exact rational value. It is defined by moving the decimal point one
    place at a time (`ShiftPoint`).
  - The operations are `add`, `subtract`, `setScale` and `divide(n, scale, mode)`. Each is
    proved against `Value`.
- `calculator.dfy`: the class `MovingAverageCalculator`.
  - Its fields are the Java fields. The `List` and `Queue` are `seq` fields that the
    methods reassign.
  - The four Java constructors are static factories returning a `Result`. The
    `IllegalArgumentException`s become `Failure` values.
  - `Valid()` holds in every reachable state. `Healthy()` is the invariant of the class comment (lines 34-40): the
    queue is the last `min(window, size)` values and the sum is their exact sum.
- `scenarios.dfy`: concrete runs taken from the unit tests, and the runs that exhibit the
  findings below.

Exceptions are results:

- An `IndexOutOfBoundsException` is `Failure(IndexOutOfBounds)`.
- A `NullPointerException` is `NullPointer`.
- An `ArithmeticException` is `Arithmetic`.
- A method that throws before changing anything returns a failure and leaves the object
  `unchanged`.

A Java `null` rounding mode is `None`. `BigDecimal.equals` compares both the unscaled value
and the scale, which is the structural equality of `Decimal`.

Where the comments of `MovingAverageCalculatorImpl.java` and its code disagree, the model
follows the code:

- The class comment (lines 34-40 and 71) and the comment at line 312 describe `setWindow`
  rebuilding `windowElements` with the last `window` values. The code at lines 310-316
  clears the queue and only re-sums those values into `windowSum`.
- The constructors validate the scale and the rounding mode (lines 137-175, through the
  validators at lines 335-353). The setters at lines 270-272 and 288-290 assign their
  argument as given.

The validating variants are modelled beside the as-written ones (see "## Findings").

## Model

| member | source | states |
|---|---|---|
| Rounding.Round | src/main/java/com/paytm/sdechallenge/collections/impl/MovingAverageCalculatorImpl.java:204 | The result is num/den rounded under the mode as `RoundingMode` defines it. It is missing exactly when the mode is UNNECESSARY and the quotient is inexact. |
| Rounding.RoundingIsUnique | src/main/java/com/paytm/sdechallenge/collections/impl/MovingAverageCalculatorImpl.java:204 | A rounding mode determines its result: two integers that both round x under one mode are equal. |
| Rounding.ExactQuotientIsKept | src/main/java/com/paytm/sdechallenge/collections/impl/MovingAverageCalculatorImpl.java:204 | Every mode returns an integer quotient unchanged. |
| Decimals.Add | src/main/java/com/paytm/sdechallenge/collections/impl/MovingAverageCalculatorImpl.java:190 | `BigDecimal.add`: the value is the exact sum and the scale is the larger of the two scales. |
| Decimals.Subtract | src/main/java/com/paytm/sdechallenge/collections/impl/MovingAverageCalculatorImpl.java:186 | `BigDecimal.subtract`: the value is the exact difference and the scale is the larger of the two scales. |
| Decimals.Sum | src/main/java/com/paytm/sdechallenge/collections/impl/MovingAverageCalculatorImpl.java:311-316 | Adding a sequence into ZERO gives its exact total, at a scale of at least 0 and at least every element's scale. |
| Decimals.SetScale | src/main/java/com/paytm/sdechallenge/collections/impl/MovingAverageCalculatorImpl.java:207 | `setScale(n)` keeps the value at the new scale and always succeeds on zero. It fails exactly when the new scale is smaller than the old one and the value is not a whole number of units of 10^-n, that is, when it would drop non-zero digits. |
| Decimals.ScaledQuotient | src/main/java/com/paytm/sdechallenge/collections/impl/MovingAverageCalculatorImpl.java:204 | An integer fraction, with a positive denominator, equal to sum/count measured in units of 10^-scale. |
| Decimals.DivideByCount | src/main/java/com/paytm/sdechallenge/collections/impl/MovingAverageCalculatorImpl.java:204 | `divide(count, scale, mode)` has exactly `scale` digits, and its unscaled value is the exact quotient rounded under the mode. It fails only under UNNECESSARY, and only when the exact quotient is not a whole number of units of 10^-scale. |
| Decimals.ExactDivisionSucceeds | src/main/java/com/paytm/sdechallenge/collections/impl/MovingAverageCalculatorImpl.java:204 | When the quotient is a whole number of units the division succeeds under every mode, UNNECESSARY included, and returns that number. |
| Decimals.TotalAppend | src/main/java/com/paytm/sdechallenge/collections/impl/MovingAverageCalculatorImpl.java:188-190 | The total of a sequence with one more value is the old total plus that value. |
| Decimals.RescalePreservesValue | src/main/java/com/paytm/sdechallenge/collections/impl/MovingAverageCalculatorImpl.java:190 | Multiplying the unscaled value by 10^k and raising the scale by k keeps the value. |
| MovingAverage.ValidateWindow | src/main/java/com/paytm/sdechallenge/collections/impl/MovingAverageCalculatorImpl.java:324-328 | A window is accepted exactly when it is positive; otherwise the error names it. |
| MovingAverage.ValidateScale | src/main/java/com/paytm/sdechallenge/collections/impl/MovingAverageCalculatorImpl.java:335-339 | A scale is accepted exactly when it is non-negative; otherwise the error names it. |
| MovingAverage.ValidateRoundingMode | src/main/java/com/paytm/sdechallenge/collections/impl/MovingAverageCalculatorImpl.java:346-353 | A mode is accepted exactly when it is non-null and not UNNECESSARY, with the null check first. |
| MovingAverage.WindowCount | src/main/java/com/paytm/sdechallenge/collections/impl/MovingAverageCalculatorImpl.java:203 | The divisor is the window or the size, whichever is smaller. It is positive for a non-empty history. |
| MovingAverage.WindowStart | src/main/java/com/paytm/sdechallenge/collections/impl/MovingAverageCalculatorImpl.java:313 | The first index of the window: within the history, with exactly `WindowCount` values after it. |
| MovingAverage.LastWindow | src/main/java/com/paytm/sdechallenge/collections/impl/MovingAverageCalculatorImpl.java:313-316 | The values `setWindow` re-sums: the suffix of the history of length `min(window, size)`. |
| MovingAverage.LastWindowAppend | src/main/java/com/paytm/sdechallenge/collections/impl/MovingAverageCalculatorImpl.java:185-189 | Appending a value shifts the window by one: the oldest value leaves exactly when the history already held `window` values. |
| MovingAverage.LastWindowEmpty | src/main/java/com/paytm/sdechallenge/collections/impl/MovingAverageCalculatorImpl.java:185-186 | The window is empty only for an empty history, and it holds `window` values once the history does. |
| MovingAverage.AddKeepsTracking | src/main/java/com/paytm/sdechallenge/collections/impl/MovingAverageCalculatorImpl.java:184-190 | If the queue is the window and the sum its total, then the poll (taken only when size >= window) finds a value, and after the step the same holds for the longer history. |
| MovingAverage.EmptyQueueTracksOnlyEmptyHistory | src/main/java/com/paytm/sdechallenge/collections/impl/MovingAverageCalculatorImpl.java:310-316 | The state `setWindow` leaves, an empty queue beside the re-summed window, satisfies `Healthy()` exactly when the history is empty. |
| MovingAverage.AddKeepsDrift | src/main/java/com/paytm/sdechallenge/collections/impl/MovingAverageCalculatorImpl.java:185-190 | A passing add leaves the difference between the running sum and the queue's total unchanged, so the error a resize introduces is never worked off. |
| MovingAverage.MovingAverageCalculator.constructor | src/main/java/com/paytm/sdechallenge/collections/impl/MovingAverageCalculatorImpl.java:126-175 | A validated construction has an empty history and queue, a zero sum, and the given settings, and satisfies the invariant. |
| MovingAverage.MovingAverageCalculator.Create | src/main/java/com/paytm/sdechallenge/collections/impl/MovingAverageCalculatorImpl.java:126-129 | Fails exactly for a window <= 0. Otherwise the calculator is fresh and empty, with scale 5 and HALF_DOWN. |
| MovingAverage.MovingAverageCalculator.CreateWithScale | src/main/java/com/paytm/sdechallenge/collections/impl/MovingAverageCalculatorImpl.java:137-143 | Fails exactly for window <= 0 or scale < 0, checking the window first. Otherwise the calculator has the given scale and HALF_DOWN. |
| MovingAverage.MovingAverageCalculator.CreateWithRoundingMode | src/main/java/com/paytm/sdechallenge/collections/impl/MovingAverageCalculatorImpl.java:151-157 | Fails exactly for window <= 0, a null mode or UNNECESSARY, in that order. Otherwise the calculator has scale 5 and the given mode. |
| MovingAverage.MovingAverageCalculator.CreateWithScaleAndRoundingMode | src/main/java/com/paytm/sdechallenge/collections/impl/MovingAverageCalculatorImpl.java:166-175 | Validates window, then scale, then mode. Each error is reported as the Java code reports it; on success the calculator has the given settings. |
| MovingAverage.MovingAverageCalculator.Add | src/main/java/com/paytm/sdechallenge/collections/impl/MovingAverageCalculatorImpl.java:183-191 | Throws NullPointerException, changing nothing, exactly when size >= window and the queue is empty. Otherwise it appends to the history and the queue, polls the head exactly when size >= window, and adds the value to the sum. It preserves `Healthy()`. |
| MovingAverage.MovingAverageCalculator.MovingAverage | src/main/java/com/paytm/sdechallenge/collections/impl/MovingAverageCalculatorImpl.java:199-210 | The result has exactly `scale` digits and is zero on an empty history. NullPointerException comes exactly when the history is non-empty and the mode is null. ArithmeticException comes only under UNNECESSARY, and only when the exact sum / min(window, size) is not a whole number of units of 10^-scale; any other mode, and an exact quotient under any mode, succeeds. The result is sum / min(window, size) rounded under the mode, and under the invariant it is the rounded mean of the last min(window, size) values. |
| MovingAverage.MovingAverageCalculator.Size | src/main/java/com/paytm/sdechallenge/collections/impl/MovingAverageCalculatorImpl.java:218-220 | The number of values added. |
| MovingAverage.MovingAverageCalculator.IsEmpty | src/main/java/com/paytm/sdechallenge/collections/impl/MovingAverageCalculatorImpl.java:228-230 | True exactly when nothing was added. |
| MovingAverage.MovingAverageCalculator.Get | src/main/java/com/paytm/sdechallenge/collections/impl/MovingAverageCalculatorImpl.java:239-244 | Fails with IndexOutOfBounds exactly when the index is outside 0..size-1. Otherwise it returns the value added at that index, unrounded. |
| MovingAverage.MovingAverageCalculator.GetAll | src/main/java/com/paytm/sdechallenge/collections/impl/MovingAverageCalculatorImpl.java:252-254 | The whole history in insertion order. |
| MovingAverage.MovingAverageCalculator.GetScale | src/main/java/com/paytm/sdechallenge/collections/impl/MovingAverageCalculatorImpl.java:261-263 | The current scale. |
| MovingAverage.MovingAverageCalculator.SetScale | src/main/java/com/paytm/sdechallenge/collections/impl/MovingAverageCalculatorImpl.java:270-272 | Any scale, negative included, is stored. History, queue, sum, window and mode are untouched. |
| MovingAverage.MovingAverageCalculator.SetScaleChecked | src/main/java/com/paytm/sdechallenge/collections/impl/MovingAverageCalculatorImpl.java:335-339 | The validating setScale: a negative scale is refused with nothing changed; otherwise only the scale changes. |
| MovingAverage.MovingAverageCalculator.GetRoundingMode | src/main/java/com/paytm/sdechallenge/collections/impl/MovingAverageCalculatorImpl.java:279-281 | The current mode. |
| MovingAverage.MovingAverageCalculator.SetRoundingMode | src/main/java/com/paytm/sdechallenge/collections/impl/MovingAverageCalculatorImpl.java:288-290 | Any mode, null and UNNECESSARY included, is stored. Nothing else changes. |
| MovingAverage.MovingAverageCalculator.SetRoundingModeChecked | src/main/java/com/paytm/sdechallenge/collections/impl/MovingAverageCalculatorImpl.java:346-353 | The validating setRoundingMode: a null or UNNECESSARY mode is refused with nothing changed; otherwise only the mode changes. |
| MovingAverage.MovingAverageCalculator.GetWindow | src/main/java/com/paytm/sdechallenge/collections/impl/MovingAverageCalculatorImpl.java:297-299 | The current window. |
| MovingAverage.MovingAverageCalculator.SetWindow | src/main/java/com/paytm/sdechallenge/collections/impl/MovingAverageCalculatorImpl.java:306-317 | A window <= 0 is refused before anything changes. Otherwise the window is replaced, the queue is left empty, and the sum is the exact sum of the last min(window, size) values. The history and the other settings are untouched, and the invariant holds afterwards only for an empty history. |
| MovingAverage.MovingAverageCalculator.SetWindowRefilled | src/main/java/com/paytm/sdechallenge/collections/impl/MovingAverageCalculatorImpl.java:306-317 | The corrected setWindow: like SetWindow, but the queue is refilled with the last min(window, size) values, so the invariant holds afterwards. |
| Scenarios.AverageIs | src/main/java/com/paytm/sdechallenge/collections/impl/MovingAverageCalculatorImpl.java:204 | Any average that satisfies movingAverage's rounding promise is the one the division computes. |
| Scenarios.EmptyAverage | src/test/java/com/paytm/SDEChallenge/MovingAverageCalculatorImplTest.java:16-24 | A fresh calculator with window 2 averages to 0.00000. |
| Scenarios.WindowOfTwo | src/test/java/com/paytm/SDEChallenge/MovingAverageCalculatorImplTest.java:145-153 | Window 2 after 10, 10, 5: size 3, element 2 is 5, and the average is 7.50000. |
| Scenarios.DefaultRounding | src/test/java/com/paytm/SDEChallenge/MovingAverageCalculatorImplTest.java:175-180 | HALF_DOWN at scale 5 averages 5.444449 and 5.444449 to 5.44445. |
| Scenarios.CustomRounding | src/test/java/com/paytm/SDEChallenge/MovingAverageCalculatorImplTest.java:182-187 | HALF_UP at scale 2 averages 5.445 and 5.440 to 5.44. |
| Scenarios.GetOutOfBounds | src/test/java/com/paytm/SDEChallenge/MovingAverageCalculatorImplTest.java:203-226 | On an empty history, get(-1), get(0) and get(1) all fail. |
| Scenarios.RefusedArguments | src/test/java/com/paytm/SDEChallenge/MovingAverageCalculatorImplTest.java:26-133 | A window of -1, a scale of -1, a null mode and UNNECESSARY are each refused with their own error. |
| Scenarios.ShrinkWindow | src/test/java/com/paytm/SDEChallenge/MovingAverageCalculatorImplTest.java:249-257 | Window 3 after 10, 10, 5, then setWindow(2): the average is 7.50000. |
| Scenarios.GrowWindow | src/test/java/com/paytm/SDEChallenge/MovingAverageCalculatorImplTest.java:259-267 | Window 2 after 0, 10, 5, then setWindow(5): the average is 5.00000. |
| Scenarios.ShrinkThenAdd | src/main/java/com/paytm/sdechallenge/collections/impl/MovingAverageCalculatorImpl.java:185-186 | After shrinking the window below the size, the next add polls an empty queue and fails, and the history does not grow. |
| Scenarios.ShrinkThenAddRefilled | src/main/java/com/paytm/sdechallenge/collections/impl/MovingAverageCalculatorImpl.java:306-317 | With the refilled queue the same add passes, and the average of 5 and 1 is 3.00000. |
| Scenarios.GrowThenAdd | src/main/java/com/paytm/sdechallenge/collections/impl/MovingAverageCalculatorImpl.java:310-316 | After growing the window to 5 over 0, 10, 5, adding 1, 1 and 7 gives 4.60000 although the window holds 10, 5, 1, 1, 7. |
| Scenarios.GrowThenAddRefilled | src/main/java/com/paytm/sdechallenge/collections/impl/MovingAverageCalculatorImpl.java:306-317 | With the refilled queue the same run gives the window's mean, 4.80000. |
| Scenarios.NullRoundingModeAccepted | src/main/java/com/paytm/sdechallenge/collections/impl/MovingAverageCalculatorImpl.java:288-290 | setRoundingMode(null) is accepted, and the next average fails with NullPointerException. |
| Scenarios.NullRoundingModeRefused | src/main/java/com/paytm/sdechallenge/collections/impl/MovingAverageCalculatorImpl.java:346-353 | The validating setter refuses null, and the average 10.00000 is still computed. |
| Scenarios.NegativeScaleAccepted | src/main/java/com/paytm/sdechallenge/collections/impl/MovingAverageCalculatorImpl.java:270-272 | setScale(-1) is accepted, and the average of the single value 10 comes out at scale -1 (1E+1). |
| Scenarios.NegativeScaleRefused | src/main/java/com/paytm/sdechallenge/collections/impl/MovingAverageCalculatorImpl.java:335-339 | The validating setter refuses -1, and the average keeps five digits, 10.00000. |

## Left out

- BigDecimal's `MathContext` and precision limits are not modelled. The calculator only uses operations with unlimited precision (`add`, `subtract`, `setScale`, `divide` with an explicit scale), and decimals are unbounded integers with a scale.
- Java's 32-bit `int` is not modelled: the window, the scale, the size and the indices are unbounded integers. A history of more than 2^31-1 values, where `size()` would overflow, is outside the model.
- MovingAverage.MovingAverageCalculator.GetAll returns the history as a value. The source returns the live `ArrayList`, so a caller can change the history behind the calculator's back; that aliasing is not modelled.
- Error message strings and `String.format` are left out. Each `IllegalArgumentException` is an `Error` value that carries the rejected argument.
- `add(null)` is not modelled because a `Decimal` cannot be null. In the source it appends null to the history and the queue and only then throws at `windowSum.add`, leaving the state half-updated.
- src/main/java/com/paytm/sdechallenge/collections/MovingAverageCalculator.java is not part of this model. It declares method signatures and has no behaviour.
- MovingAverage.MovingAverageCalculator.Add does not repeat the drift property in its contract. Its ensures state the exact new queue and sum, and MovingAverage.AddKeepsDrift proves the drift is preserved over exactly that step.
- The unit tests that only read back settings (getters after construction, setScale(3), setRoundingMode(HALF_DOWN)) are covered by the setters' and getters' contracts and have no scenario of their own.

## Findings

| source | as written | input that shows it | evidently intended | confidence | as-written member | corrected member |
|---|---|---|---|---|---|---|
| src/main/java/com/paytm/sdechallenge/collections/impl/MovingAverageCalculatorImpl.java:310-316 | `setWindow` clears the queue and re-sums the window, but never re-enqueues it. | Window 3; add 10, 10, 5; `setWindow(2)`; `add(1)`. The poll at :186 returns null and the add throws NullPointerException. | The queue is refilled with the last min(window, size) values, so the next add polls 10 and averages 5 and 1 to 3.00000. | high; not executed | Scenarios.ShrinkThenAdd | MovingAverage.MovingAverageCalculator.SetWindowRefilled |
| src/main/java/com/paytm/sdechallenge/collections/impl/MovingAverageCalculatorImpl.java:310-316 | After a resize to a larger window, the empty queue lets later adds pass, but the first poll removes a value added after the resize instead of the oldest value in the window. | Window 2; add 0, 10, 5; `setWindow(5)`; add 1, 1, 7. The average is 4.60000. | The average is the mean of the window 10, 5, 1, 1, 7, which is 4.80000. | high; not executed | Scenarios.GrowThenAdd | Scenarios.GrowThenAddRefilled |
| src/main/java/com/paytm/sdechallenge/collections/impl/MovingAverageCalculatorImpl.java:288-290 | `setRoundingMode` stores null and UNNECESSARY without the validation the constructors perform. | Window 2; add 10; `setRoundingMode(null)`; `movingAverage()` throws NullPointerException. | Refuse null and UNNECESSARY with IllegalArgumentException and keep the old mode. | medium; not executed | Scenarios.NullRoundingModeAccepted | MovingAverage.MovingAverageCalculator.SetRoundingModeChecked |
| src/main/java/com/paytm/sdechallenge/collections/impl/MovingAverageCalculatorImpl.java:270-272 | `setScale` stores a negative scale without the validation the constructors perform. | Window 2; add 10; `setScale(-1)`; `movingAverage()` returns 1E+1, at scale -1. | Refuse a negative scale with IllegalArgumentException and keep the old scale. | medium; not executed | Scenarios.NegativeScaleAccepted | MovingAverage.MovingAverageCalculator.SetScaleChecked |
