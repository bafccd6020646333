/**
 * The activity's own state and its two operations as the source writes
 * them: `validateInput` assigns the three settings fields step by step,
 * `train` runs the update loop over local weights and reads those fields.
 */
module Activity {
  import opened Wrappers
  import opened Dataset
  import opened Validation
  import opened Training

  class MainActivity {
    var learningSpeed: real
    var timeDeadline: real
    var iterations: int

    /** The fields start at `0f`, `0f` and `0`. */
    constructor ()
      ensures learningSpeed == 0.0 && timeDeadline == 0.0 && iterations == 0
    {
      learningSpeed, timeDeadline, iterations := 0.0, 0.0, 0;
    }

    /** The settings `train` reads. */
    function Settings(): Config
      reads this
    {
      Config(learningSpeed, timeDeadline, iterations)
    }

    /**
     * `validateInput`: the verdict is that of `Validate`; on success the
     * fields hold the validated configuration. On failure each field keeps
     * whatever the code had assigned before the failing check: the speed
     * once it parsed, the raw deadline once it parsed and the scaled one
     * once it was in its set, the cap once it parsed.
     */
    method ValidateInput(speed: Entry<real>, deadline: Entry<real>, maxIterations: Entry<int>)
      returns (error: Option<ValidationError>)
      modifies this
      ensures var v := Validate(speed, deadline, maxIterations);
              && (error.None? <==> v.Success?)
              && (error.Some? ==> error.value == v.error)
              && (error.None? ==> Settings() == v.value)
      ensures learningSpeed == if speed.Parsed? then speed.value else old(learningSpeed)
      ensures timeDeadline ==
                if error in {None, Some(NotANumber(IterationsField)), Some(NoPositiveLimit), Some(IterationsNotAllowed)}
                then SecondsOf(deadline) * 1000.0
                else if error == Some(DeadlineNotAllowed) then SecondsOf(deadline)
                else old(timeDeadline)
      ensures iterations ==
                if error in {None, Some(NoPositiveLimit), Some(IterationsNotAllowed)}
                then CountOf(maxIterations)
                else old(iterations)
    {
      if speed.Blank? {
        return Some(MissingLearningSpeed);
      }
      if speed.Unparsable? {
        return Some(NotANumber(LearningSpeedField));
      }
      learningSpeed := speed.value;
      if learningSpeed !in LearningSpeeds {
        return Some(LearningSpeedNotAllowed);
      }
      if maxIterations.Blank? && deadline.Blank? {
        return Some(MissingStoppingCondition);
      }
      if deadline.Unparsable? {
        return Some(NotANumber(DeadlineField));
      }
      timeDeadline := if deadline.Blank? then 0.0 else deadline.value;
      if timeDeadline !in DeadlineSeconds {
        return Some(DeadlineNotAllowed);
      }
      timeDeadline := timeDeadline * 1000.0;
      if maxIterations.Unparsable? {
        return Some(NotANumber(IterationsField));
      }
      iterations := if maxIterations.Blank? then 0 else maxIterations.value;
      if iterations == 0 && timeDeadline == 0.0 {
        return Some(NoPositiveLimit);
      }
      if iterations !in IterationCounts {
        return Some(IterationsNotAllowed);
      }
      return None;
    }

    /**
     * The body of one pass for `currentPoint`: the three-way classification
     * against the threshold, the delta-rule update with a streak reset on a
     * misclassified point, the streak increment otherwise, and the
     * illegal-value test right after an update.
     */
    method Learn(currentPoint: Point, w1: real, w2: real, resultNum: nat)
      returns (w1': real, w2': real, resultNum': nat, illegal: bool)
      ensures NeedsUpdate(currentPoint, w1, w2) ==>
                && w1' == Updated(currentPoint, w1, w2, learningSpeed).w1
                && w2' == Updated(currentPoint, w1, w2, learningSpeed).w2
                && resultNum' == 0
                && illegal == (Illegal(w1') || Illegal(w2'))
      ensures !NeedsUpdate(currentPoint, w1, w2) ==>
                w1' == w1 && w2' == w2 && resultNum' == resultNum + 1 && !illegal
    {
      w1', w2', resultNum', illegal := w1, w2, resultNum, false;
      var diff := Diff(currentPoint, w1, w2);
      if currentPoint.y == Threshold {
        if Abs(diff - Threshold) > Tolerance {
          var d := Threshold - diff;
          w1' := w1' + d * currentPoint.x * learningSpeed;
          w2' := w2' + d * currentPoint.y * learningSpeed;
          resultNum' := 0;
          illegal := Illegal(w1') || Illegal(w2');
        } else {
          resultNum' := resultNum' + 1;
        }
      } else if currentPoint.y < Threshold {
        if diff > Threshold {
          var d := Threshold - diff;
          w1' := w1' + d * currentPoint.x * learningSpeed;
          w2' := w2' + d * currentPoint.y * learningSpeed;
          resultNum' := 0;
          illegal := Illegal(w1') || Illegal(w2');
        } else {
          resultNum' := resultNum' + 1;
        }
      } else {
        if diff < Threshold {
          var d := Threshold - diff;
          w1' := w1' + d * currentPoint.x * learningSpeed;
          w2' := w2' + d * currentPoint.y * learningSpeed;
          resultNum' := 0;
          illegal := Illegal(w1') || Illegal(w2');
        } else {
          resultNum' := resultNum' + 1;
        }
      }
    }

    /**
     * `train`: runs passes until one of the stop checks decides. The
     * outcome is the verdict of the first pass that decides; a converged run
     * classifies every point, a capped run processes at most cap + 1 points,
     * and the reported time is never negative.
     */
    method Train(clock: nat -> int) returns (outcome: Outcome, ghost passes: nat)
      requires Monotone(clock) && Bounded(Settings(), clock)
      ensures StopsFirstAt(Settings(), clock, passes)
      ensures Verdict(Settings(), clock, passes) == Some(outcome)
      ensures outcome.Converged? ==>
                forall p :: p in Points ==> !NeedsUpdate(p, outcome.w1, outcome.w2)
      ensures iterations > 0 ==> passes <= iterations + 1
      ensures !outcome.Diverged? ==> !Illegal(outcome.w1) && !Illegal(outcome.w2)
      ensures outcome.elapsed >= 0
    {
      var w1, w2 := 0.0, 0.0;
      var i: nat, resultNum: nat := 0, 0;
      var n := |Points|;
      var startTime := clock(0);

      // No pass beyond `bound` is reached: the cap fires at pass cap + 1, and
      // the deadline fires once the clock has passed it at some reading k.
      ghost var bound: nat;
      if iterations > 0 {
        bound := iterations + 1;
      } else {
        ghost var k: nat :| (clock(k) - clock(0)) as real > timeDeadline;
        bound := k - 1;
      }

      while resultNum < n
        invariant TrainState(w1, w2, i, resultNum) == StateAfter(learningSpeed, i)
        invariant resultNum <= n
        invariant i <= bound
        invariant forall j: nat :: j < i ==> Verdict(Settings(), clock, j).None?
        decreases bound - i
      {
        var time := clock(i + 1);
        if iterations > 0 {
          if i > iterations {
            outcome, passes := IterationLimitExceeded(w1, w2, time - startTime), i;
            ElapsedNonNegative(Settings(), clock, i);
            ReportedWeightsAreLegal(Settings(), clock, i);
            return;
          }
        }
        if timeDeadline > 0.0 {
          if (time - startTime) as real > timeDeadline {
            outcome, passes := DeadlineExceeded(w1, w2, i, time - startTime), i;
            ElapsedNonNegative(Settings(), clock, i);
            ReportedWeightsAreLegal(Settings(), clock, i);
            return;
          }
        }
        var currentPoint := Points[i % n];
        var illegal;
        w1, w2, resultNum, illegal := Learn(currentPoint, w1, w2, resultNum);
        if illegal {
          outcome, passes := Diverged(i, time - startTime), i;
          ElapsedNonNegative(Settings(), clock, i);
          return;
        }
        i := i + 1;
      }
      outcome, passes := Converged(w1, w2, i, clock(i + 1) - startTime), i;
      ElapsedNonNegative(Settings(), clock, i);
      ReportedWeightsAreLegal(Settings(), clock, i);
    }

  }
}
