/**
 * The perceptron trainer `train` as specification functions: the state
 * after k passes of the loop, the verdict of the stop checks at pass k,
 * and what each verdict guarantees. The clock is an oracle: `clock(0)` is
 * the start time and `clock(k + 1)` the reading taken at the top of pass k
 * (for a converged run, the final reading after the loop), in nanoseconds.
 */
module Training {
  import opened Wrappers
  import opened Dataset
  import opened Validation

  /** The loop's local state: the weights, the step counter `i` and the streak `resultNum`. */
  datatype TrainState = TrainState(w1: real, w2: real, i: nat, streak: nat)

  /** The state before the first pass: weights (0, 0), nothing counted. */
  const Start: TrainState := TrainState(0.0, 0.0, 0, 0)

  /**
   * The smallest real that Float arithmetic rounds to infinity
   * (round-to-nearest-even): Float.MAX_VALUE plus half a unit in its last
   * place, 2^128 - 2^103.
   */
  const FloatOverflow: real := 340282356779733661637539395458142568448.0

  /**
   * A weight `train` flags as illegal. Float weights become NaN or an
   * infinity only after some value overflows; over the reals that is a
   * magnitude at or beyond the overflow bound.
   */
  predicate Illegal(w: real)
  {
    w <= -FloatOverflow || FloatOverflow <= w
  }

  /** One pass over `points[i % n]` with learning rate `rate`, ignoring the stop checks. */
  function Step(s: TrainState, rate: real): TrainState
  {
    var p := Points[s.i % N];
    if NeedsUpdate(p, s.w1, s.w2) then
      var w := Updated(p, s.w1, s.w2, rate);
      TrainState(w.w1, w.w2, s.i + 1, 0)
    else
      TrainState(s.w1, s.w2, s.i + 1, s.streak + 1)
  }

  /**
   * A pass advances the counter by one; it resets the streak exactly when
   * the point needs an update, which is the only way the weights move, and
   * otherwise adds one to the streak.
   */
  lemma StepCountsAndResets(s: TrainState, rate: real)
    ensures Step(s, rate).i == s.i + 1
    ensures Step(s, rate).streak == 0 <==> NeedsUpdate(Points[s.i % N], s.w1, s.w2)
    ensures Step(s, rate).streak == 0 ==>
              Weights(Step(s, rate).w1, Step(s, rate).w2) == Updated(Points[s.i % N], s.w1, s.w2, rate)
    ensures Step(s, rate).streak != 0 ==>
              && Step(s, rate).streak == s.streak + 1
              && Step(s, rate).w1 == s.w1 && Step(s, rate).w2 == s.w2
  {
  }

  /** The state after k passes: every pass adds exactly one to `i`. */
  function StateAfter(rate: real, k: nat): (s: TrainState)
    ensures s.i == k && s.streak <= k
  {
    if k == 0 then Start else Step(StateAfter(rate, k - 1), rate)
  }

  /** The result of `train`; `elapsed` is the clock difference in nanoseconds. */
  datatype Outcome =
    | Converged(w1: real, w2: real, iterations: nat, elapsed: int)
    | IterationLimitExceeded(w1: real, w2: real, elapsed: int)
    | DeadlineExceeded(w1: real, w2: real, iterations: nat, elapsed: int)
    | Diverged(iterations: nat, elapsed: int)

  /** The clock never runs backwards (System.nanoTime is monotonic). */
  ghost predicate Monotone(clock: nat -> int)
  {
    forall j: nat, k: nat :: j <= k ==> clock(j) <= clock(k)
  }

  /**
   * The run is bounded: an iteration cap is set, or a deadline is set and
   * the clock eventually passes it.
   */
  ghost predicate Bounded(config: Config, clock: nat -> int)
  {
    || config.iterations > 0
    || (config.timeDeadline > 0.0 && exists k: nat :: (clock(k) - clock(0)) as real > config.timeDeadline)
  }

  /** The iteration cap is set and pass k is beyond it (`i > iterations`). */
  predicate CapPassed(config: Config, k: nat)
  {
    config.iterations > 0 && k > config.iterations
  }

  /** The deadline is set and the clock difference at pass k exceeds it. */
  predicate DeadlinePassed(config: Config, clock: nat -> int, k: nat)
  {
    config.timeDeadline > 0.0 && (clock(k + 1) - clock(0)) as real > config.timeDeadline
  }

  /**
   * The stop checks of pass k, in the source's order: convergence (the
   * loop guard), then the iteration cap, then the deadline against the raw
   * nanosecond difference, and after an update the illegal-weight check.
   * Each outcome is reported exactly when its own check fires and every
   * earlier one did not. None means pass k completes and the loop goes on.
   */
  function Verdict(config: Config, clock: nat -> int, k: nat): (r: Option<Outcome>)
    ensures (r.Some? && r.value.Converged?) <==> StateAfter(config.learningSpeed, k).streak >= N
    ensures (r.Some? && r.value.IterationLimitExceeded?) <==>
              StateAfter(config.learningSpeed, k).streak < N && CapPassed(config, k)
    ensures (r.Some? && r.value.DeadlineExceeded?) <==>
              && StateAfter(config.learningSpeed, k).streak < N
              && !CapPassed(config, k)
              && DeadlinePassed(config, clock, k)
    ensures (r.Some? && r.value.Diverged?) <==>
              var s := StateAfter(config.learningSpeed, k);
              && s.streak < N
              && !CapPassed(config, k)
              && !DeadlinePassed(config, clock, k)
              && NeedsUpdate(Points[k % N], s.w1, s.w2)
              && (Illegal(Step(s, config.learningSpeed).w1) || Illegal(Step(s, config.learningSpeed).w2))
    ensures r.Some? && r.value.Converged? ==>
              && forall p :: p in Points ==> !NeedsUpdate(p, r.value.w1, r.value.w2)
    ensures r.Some? && !r.value.Diverged? ==>
              && r.value.w1 == StateAfter(config.learningSpeed, k).w1
              && r.value.w2 == StateAfter(config.learningSpeed, k).w2
    ensures r.Some? && !r.value.IterationLimitExceeded? ==> r.value.iterations == k
    ensures r.Some? ==> r.value.elapsed == clock(k + 1) - clock(0)
  {
    var s := StateAfter(config.learningSpeed, k);
    var elapsed := clock(k + 1) - clock(0);
    if s.streak >= N then
      ConvergedClassifiesAll(config.learningSpeed, k);
      Some(Converged(s.w1, s.w2, k, elapsed))
    else if config.iterations > 0 && k > config.iterations then
      Some(IterationLimitExceeded(s.w1, s.w2, elapsed))
    else if config.timeDeadline > 0.0 && elapsed as real > config.timeDeadline then
      Some(DeadlineExceeded(s.w1, s.w2, k, elapsed))
    else
      var next := Step(s, config.learningSpeed);
      if NeedsUpdate(Points[k % N], s.w1, s.w2) && (Illegal(next.w1) || Illegal(next.w2)) then
        Some(Diverged(k, elapsed))
      else
        None
  }

  /** `train` stops at pass k: pass k decides, and every earlier pass went on. */
  ghost predicate StopsFirstAt(config: Config, clock: nat -> int, k: nat)
  {
    Verdict(config, clock, k).Some? && forall j: nat :: j < k ==> Verdict(config, clock, j).None?
  }

  /**
   * A streak of s ends a run of s passes without an update: over those
   * passes the weights did not change and each visited point was classified.
   */
  lemma {:induction false} QuietStreak(rate: real, k: nat, j: nat)
    requires k - StateAfter(rate, k).streak <= j < k
    ensures StateAfter(rate, j).w1 == StateAfter(rate, k).w1
    ensures StateAfter(rate, j).w2 == StateAfter(rate, k).w2
    ensures !NeedsUpdate(Points[j % N], StateAfter(rate, k).w1, StateAfter(rate, k).w2)
  {
    var prev := StateAfter(rate, k - 1);
    assert StateAfter(rate, k) == Step(prev, rate);
    assert !NeedsUpdate(Points[prev.i % N], prev.w1, prev.w2);
    if j < k - 1 {
      QuietStreak(rate, k - 1, j);
    }
  }

  /**
   * When the streak reaches n, the last n passes visited every point once
   * (`i % n` runs through all indices), so the weights classify all four.
   */
  lemma ConvergedClassifiesAll(rate: real, k: nat)
    requires StateAfter(rate, k).streak >= N
    ensures forall p :: p in Points ==>
              !NeedsUpdate(p, StateAfter(rate, k).w1, StateAfter(rate, k).w2)
  {
    var s := StateAfter(rate, k);
    forall m | 0 <= m < N
      ensures !NeedsUpdate(Points[m], s.w1, s.w2)
    {
      // The window k - n .. k - 1 holds one index congruent to m.
      var q, r := k / N, k % N;
      assert k == N * q + r;
      var j := if m < r then N * q + m else N * (q - 1) + m;
      assert j % N == m;
      QuietStreak(rate, k, j);
    }
  }

  /**
   * Until `train` stops, the streak never exceeds n: 0 <= resultNum <= n
   * at the top of every pass it reaches.
   */
  lemma {:induction false} StreakBounded(config: Config, clock: nat -> int, k: nat)
    requires forall j: nat :: j < k ==> Verdict(config, clock, j).None?
    ensures StateAfter(config.learningSpeed, k).streak <= N
  {
    if k > 0 {
      assert Verdict(config, clock, k - 1).None?;
      StreakBounded(config, clock, k - 1);
    }
  }

  /**
   * With a cap of c > 0, `train` processes at most c + 1 points, and it
   * reports the cap exactly at pass c + 1.
   */
  lemma CapBoundsPasses(config: Config, clock: nat -> int, k: nat)
    requires config.iterations > 0 && StopsFirstAt(config, clock, k)
    ensures k <= config.iterations + 1
    ensures Verdict(config, clock, k).value.IterationLimitExceeded? ==> k == config.iterations + 1
    ensures k == config.iterations + 1 && !Verdict(config, clock, k).value.Converged? ==>
              Verdict(config, clock, k).value.IterationLimitExceeded?
  {
    // At pass c + 1 either the streak is complete or the cap fires.
    assert Verdict(config, clock, config.iterations + 1).Some?;
  }

  /**
   * The deadline bounds the run the same way: when the clock difference
   * at pass j exceeds a positive deadline, the run has stopped by pass j,
   * and if it stops at j without converging and below the cap, it reports
   * the deadline.
   */
  lemma DeadlineBoundsPasses(config: Config, clock: nat -> int, k: nat, j: nat)
    requires StopsFirstAt(config, clock, k) && DeadlinePassed(config, clock, j)
    ensures k <= j
    ensures k == j && !CapPassed(config, k) && !Verdict(config, clock, k).value.Converged? ==>
              Verdict(config, clock, k).value.DeadlineExceeded?
  {
    // At pass j the streak is complete, the cap fires or the deadline fires.
    assert Verdict(config, clock, j).Some?;
  }

  /**
   * Until `train` stops, no weight it holds is illegal: an update that
   * produced one would have stopped the run with Diverged.
   */
  lemma {:induction false} WeightsLegalUntilStop(config: Config, clock: nat -> int, k: nat)
    requires forall j: nat :: j < k ==> Verdict(config, clock, j).None?
    ensures !Illegal(StateAfter(config.learningSpeed, k).w1)
    ensures !Illegal(StateAfter(config.learningSpeed, k).w2)
  {
    if k > 0 {
      assert Verdict(config, clock, k - 1).None?;
      WeightsLegalUntilStop(config, clock, k - 1);
    }
  }

  /**
   * Every outcome other than Diverged reports legal weights: a run never
   * returns an illegal value as an answer.
   */
  lemma ReportedWeightsAreLegal(config: Config, clock: nat -> int, k: nat)
    requires StopsFirstAt(config, clock, k) && !Verdict(config, clock, k).value.Diverged?
    ensures !Illegal(Verdict(config, clock, k).value.w1) && !Illegal(Verdict(config, clock, k).value.w2)
  {
    WeightsLegalUntilStop(config, clock, k);
  }

  /**
   * A pass goes on when the streak is short, the cap and the deadline have
   * not been passed, and the weights after the pass are legal.
   */
  lemma PassGoesOn(config: Config, clock: nat -> int, k: nat)
    requires StateAfter(config.learningSpeed, k).streak < N
    requires config.iterations <= 0 || k <= config.iterations
    requires config.timeDeadline <= 0.0 || (clock(k + 1) - clock(0)) as real <= config.timeDeadline
    requires !Illegal(StateAfter(config.learningSpeed, k + 1).w1) && !Illegal(StateAfter(config.learningSpeed, k + 1).w2)
    ensures Verdict(config, clock, k).None?
  {
  }

  /** The pass at which `train` stops is unique: the run is deterministic. */
  lemma StopIsUnique(config: Config, clock: nat -> int, k1: nat, k2: nat)
    requires StopsFirstAt(config, clock, k1) && StopsFirstAt(config, clock, k2)
    ensures k1 == k2
  {
  }

  /** With a monotone clock every reported time is non-negative. */
  lemma ElapsedNonNegative(config: Config, clock: nat -> int, k: nat)
    requires Monotone(clock) && Verdict(config, clock, k).Some?
    ensures Verdict(config, clock, k).value.elapsed >= 0
  {
    assert clock(0) <= clock(k + 1);
  }
}
