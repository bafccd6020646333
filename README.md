# Perceptron trainer — a Dafny model

The Perceptron app trains a single-layer perceptron on four fixed points,
(0, 6), (1, 5), (3, 3) and (2, 4), against the threshold 4. One activity
does the work. `validateInput` checks three text fields: a learning
speed, a deadline and an iteration cap. `train` then cycles through the
points. On each point it computes the activation `x*w1 + y*w2`
(`getDiff`) and applies the delta rule when the point is misclassified.
When a point's second coordinate equals the threshold, "misclassified"
means the activation is more than 0.03 away from it. Training stops with
one of four outcomes:

- the whole set passes without an update (converged);
- the step counter passes the cap;
- the nanosecond clock passes the deadline;
- a weight becomes NaN or infinite, which is reported as an error.

The model has six modules:

- `Wrappers` holds `Option` and `Result`.
- `Dataset` holds the points, the threshold and tolerance, `getDiff`
  (`Diff`), the classification rule (`NeedsUpdate`) and the delta-rule
  update (`Updated`). It also proves what one update does to the error on
  its point.
- `Validation` holds `validateInput` as a decision function (`Validate`)
  with an order-free characterisation of the inputs it accepts.
- `Training` holds the specification of `train`: the state after k passes
  (`StateAfter`, built from `Step`), the verdict of the stop checks at
  pass k (`Verdict`), and the lemmas about both.
- `Activity` is the activity class. It has the three fields the source
  mutates. `ValidateInput` assigns them step by step, as the source does.
  `Train` is the imperative loop over local weights, proved against
  `StateAfter` and `Verdict`. `Learn` is the body of one pass.
- `WorkedRun` follows one concrete run pass by pass.

Modelling conventions:

- The clock is a parameter `clock: nat -> int`. `clock(0)` is the start
  reading and `clock(k + 1)` the reading at the top of pass k; for a
  converged run it is the final reading after the loop.
- Text parsing is a parameter as well. Each field arrives as `Blank`,
  `Unparsable` or `Parsed(value)`.
- Float values are exact reals.

Where the code does something surprising, the model follows the code:

- The code tests "both limits are 0" before it tests the cap against its
  set of allowed values. Testing the cap's membership first would give the
  same verdict on every input; `Validation.LastTwoChecksCommute` proves it.
- The deadline is scaled by 1000 (seconds to milliseconds) and then
  compared with a difference of `System.nanoTime()` readings. A deadline
  of 0.5 s therefore fires after 500 ns. The model keeps that comparison
  as written.
- A `toFloat()`/`toInt()` failure throws NumberFormatException, which the
  click handler does not catch. The model reports it as
  `NotANumber(field)`, the one refusal that never reaches the toast.
- Divergence is an `error(...)` inside `train`, which the handler turns
  into a toast. The model returns it as the outcome `Diverged`.

## Model

| member | source | states |
|---|---|---|
| Validation.Validate | app/src/main/java/com/example/perceptron/MainActivity.kt:45-74 | Succeeds exactly when the inputs are acceptable, stated without any order: the speed is present and in its set; the deadline and the cap each parse when present and are in their sets; and at least one of them is positive. On success the configuration is legal and holds the speed, the deadline times 1000 and the cap. |
| Validation.BlankSpeedRefusedFirst | app/src/main/java/com/example/perceptron/MainActivity.kt:46-48 | A blank learning speed is refused as missing, whatever the other two fields hold. |
| Validation.SpeedOutsideSetRefused | app/src/main/java/com/example/perceptron/MainActivity.kt:49-53 | A parsed speed outside {0.001, 0.01, 0.05, 0.1, 0.2, 0.3} is refused, whatever the other two fields hold. |
| Validation.NoStoppingConditionRefused | app/src/main/java/com/example/perceptron/MainActivity.kt:55-70 | With an allowed speed, two blank limits are refused as missing. Limits that are 0 or blank, but not both blank, are refused as having no positive limit. |
| Validation.LastTwoChecksCommute | app/src/main/java/com/example/perceptron/MainActivity.kt:68-73 | Testing the cap's membership before the both-zero rule gives the same verdict as the code's order on every input. |
| Activity.MainActivity.constructor | app/src/main/java/com/example/perceptron/MainActivity.kt:15-17 | The three settings fields start at 0. |
| Activity.MainActivity.ValidateInput | app/src/main/java/com/example/perceptron/MainActivity.kt:45-74 | Reports no error exactly when `Validate` succeeds, otherwise reports `Validate`'s error. On success the fields hold the validated configuration. On failure each field holds what the code had assigned before the failing check: the speed once parsed; the raw deadline once parsed, scaled once in its set; the cap once parsed. |
| Dataset.DiffIsLinear | app/src/main/java/com/example/perceptron/MainActivity.kt:146-148 | The activation of a point is linear in the weights: it adds over a sum of weight pairs and scales with a common factor. |
| Dataset.NeedsUpdateBand | app/src/main/java/com/example/perceptron/MainActivity.kt:97-126 | A point on the boundary row y = 4 needs an update exactly when its activation is outside [4 - 0.03, 4 + 0.03]. A point below the row needs one exactly when its activation is above 4, a point above exactly when it is below 4. |
| Dataset.Updated | app/src/main/java/com/example/perceptron/MainActivity.kt:99-129 | After a delta-rule update on p, the activation's distance from the threshold is the old error times 1 - rate * (x² + y²). |
| Dataset.UpdateShrinksOrGrowsError | app/src/main/java/com/example/perceptron/MainActivity.kt:96-101 | An update strictly shrinks a non-zero error on its point when 0 < rate * (x² + y²) < 2, and strictly grows it when rate * (x² + y²) > 2. |
| Training.StepCountsAndResets | app/src/main/java/com/example/perceptron/MainActivity.kt:95-140 | A pass adds one to the step counter. It resets the streak exactly when its point needs an update, and then the weights are the delta-rule update. Otherwise the streak grows by one and the weights stay. |
| Training.StateAfter | app/src/main/java/com/example/perceptron/MainActivity.kt:78-140 | After k passes the step counter is k and the streak of unchanged passes is at most k. |
| Training.Verdict | app/src/main/java/com/example/perceptron/MainActivity.kt:84-139 | The checks in the code's order, each outcome reported exactly when its own check fires and no earlier one did. Converged exactly when the streak is at least n; the weights then classify every point, and the step count is k. Cap exactly when the streak is short and a cap c > 0 is passed. Deadline exactly when the streak is short, the cap is not passed, and the elapsed time exceeds a positive deadline. Diverged exactly when none of those fired and the pass's update made a weight illegal. Every outcome but Diverged carries the state's weights, and every verdict reports the clock difference since the start. |
| Training.QuietStreak | app/src/main/java/com/example/perceptron/MainActivity.kt:95-140 | A streak of s means the last s passes left the weights unchanged and found each visited point classified. |
| Training.ConvergedClassifiesAll | app/src/main/java/com/example/perceptron/MainActivity.kt:84-142 | When the streak reaches n, the current weights classify all four points. |
| Training.StreakBounded | app/src/main/java/com/example/perceptron/MainActivity.kt:81-140 | At the top of every pass the run reaches, the streak is at most n. |
| Training.CapBoundsPasses | app/src/main/java/com/example/perceptron/MainActivity.kt:86-89 | With a cap c > 0 the run stops by pass c + 1. It reports the cap only at pass c + 1, and at pass c + 1 it reports the cap unless it converged. |
| Training.DeadlineBoundsPasses | app/src/main/java/com/example/perceptron/MainActivity.kt:84-92 | When the elapsed time at pass j exceeds a positive deadline, the run stops by pass j. If it stops at j below the cap without converging, it reports the deadline. |
| Training.WeightsLegalUntilStop | app/src/main/java/com/example/perceptron/MainActivity.kt:99-135 | Until the run stops, neither weight is illegal. |
| Training.ReportedWeightsAreLegal | app/src/main/java/com/example/perceptron/MainActivity.kt:84-143 | Every outcome other than Diverged reports legal weights. |
| Training.PassGoesOn | app/src/main/java/com/example/perceptron/MainActivity.kt:84-140 | A pass with a short streak, below the cap and the deadline, whose new weights are legal, does not stop the run. |
| Training.StopIsUnique | app/src/main/java/com/example/perceptron/MainActivity.kt:84-143 | The run stops at a single pass. |
| Training.ElapsedNonNegative | app/src/main/java/com/example/perceptron/MainActivity.kt:83-92 | With a monotone clock every reported elapsed time is non-negative. |
| Activity.MainActivity.Learn | app/src/main/java/com/example/perceptron/MainActivity.kt:95-139 | On a misclassified point: the delta-rule update, a streak reset, and the illegal flag iff a new weight is illegal. Otherwise: weights unchanged, streak plus one, no flag. |
| Activity.MainActivity.Train | app/src/main/java/com/example/perceptron/MainActivity.kt:77-144 | The outcome is the verdict of the first pass that decides, and that pass is unique. A converged run classifies all points. With a cap c > 0 at most c + 1 passes run. Outcomes other than Diverged carry legal weights. The elapsed time is non-negative. |
| WorkedRun.ExampleRunConverges | app/src/main/java/com/example/perceptron/MainActivity.kt:77-144 | With speed 0.05, cap 100 and no deadline, passes 0 to 7 go on and pass 8 stops with Converged at weights (-0.08, 1.04). |
| WorkedRun.ExampleStopsAtPassEight | app/src/main/java/com/example/perceptron/MainActivity.kt:84-143 | At pass 8 of that run the streak is complete, and the run converges with weights (-0.08, 1.04) after 8 steps. |
| WorkedRun.ExampleTrajectory | app/src/main/java/com/example/perceptron/MainActivity.kt:95-140 | The eight states of that run: w2 becomes 1.2 at pass 0, the point (2, 4) is corrected at pass 3, and passes 4 to 7 leave the weights unchanged. |
| WorkedRun.ExampleCorrection | app/src/main/java/com/example/perceptron/MainActivity.kt:97-101 | The boundary point (2, 4), seen with weights (0, 1.2) at rate 0.05, moves the weights to (-0.08, 1.04). |

## Left out

- The user interface is not modelled: `onCreate`, reading the text views, showing the report and the toast (lines 26-43).
- The report strings are not modelled. Each outcome carries its fields instead. The elapsed time stays in nanoseconds; it is not divided by 1000 and truncated to microseconds.
- Float arithmetic is not modelled: weights, products and sums are exact reals, so rounding is absent. In particular `0.1F` and similar constants stand for the exact decimals.
- Training.Illegal: approximates the test "weight is NaN or ±Infinity" by "magnitude at or beyond the Float overflow bound 2^128 - 2^103". Over the reals no weight is ever NaN. A Float run can overflow on intermediate products earlier than the exact weights would.
- Validation.Validate: accepts a deadline of "-0" that the code refuses. The code tests membership with `List<Float>.contains`, which compares boxed Floats with `equals`, and under `equals` -0.0f is not 0f. The model's deadline is an exact real, which has no negative zero.
- `String.toFloat()`/`toInt()` are not modelled; each field arrives already classified as blank, unparsable or a number.
- `System.nanoTime()` is the clock parameter. The conversion of the `Long` time difference to `Float` in the deadline comparison is taken as exact.
- Kotlin `Int` overflow of the step counter `i` is not modelled; the counter is a `nat`.
- Activity.MainActivity.Train: requires the run to be bounded, meaning a cap is set, or a deadline is set and the clock eventually passes it. After a successful `validateInput` one of the two limits is positive, so only a clock that never advances past a positive deadline is excluded.
- Activity.MainActivity.Learn: is the body of one loop pass, factored out of `train` as a method of its own; the source writes it inline.
- WorkedRun.ExampleRunConverges: states the eight passes that go on one by one rather than as one quantified "the run stops first at pass 8".
