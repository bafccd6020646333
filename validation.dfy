/**
 * The parameter validator `validateInput`: three text fields checked in a
 * fixed order, stopping at the first failure. Text parsing is abstracted:
 * each field arrives already classified as blank, not a number, or a number.
 */
module Validation {
  import opened Wrappers

  /** A text field after `isBlank()` and `toFloat()`/`toInt()`. */
  datatype Entry<T> = Blank | Unparsable | Parsed(value: T)

  datatype Field = LearningSpeedField | DeadlineField | IterationsField

  /**
   * Why `validateInput` refuses its inputs. Every case but NotANumber is an
   * `error(...)` that the click handler shows as a toast; the handler does
   * not catch the NumberFormatException behind NotANumber.
   */
  datatype ValidationError =
    | MissingLearningSpeed        // "Please enter learning speed"
    | NotANumber(field: Field)    // NumberFormatException from toFloat()/toInt()
    | LearningSpeedNotAllowed     // "Learning speed must be in set of ..."
    | MissingStoppingCondition    // "Please enter a number of either a deadline or of iterations"
    | DeadlineNotAllowed          // "Deadline must be in set of ..."
    | NoPositiveLimit             // "Either iterations or time deadline must be greater than 0"
    | IterationsNotAllowed        // "Iterations must be in set of ..."

  /** The three settings `train` reads: rate, scaled deadline, iteration cap. */
  datatype Config = Config(learningSpeed: real, timeDeadline: real, iterations: int)

  const LearningSpeeds: set<real> := {0.001, 0.01, 0.05, 0.1, 0.2, 0.3}
  const DeadlineSeconds: set<real> := {0.0, 0.5, 1.0, 2.0, 5.0}
  const IterationCounts: set<int> := {0, 100, 200, 500, 1000}

  /** The deadline in seconds a field stands for; a blank field means 0. */
  function SecondsOf(e: Entry<real>): real
  {
    if e.Parsed? then e.value else 0.0
  }

  /** The iteration cap a field stands for; a blank field means 0. */
  function CountOf(e: Entry<int>): int
  {
    if e.Parsed? then e.value else 0
  }

  /**
   * The inputs `validateInput` accepts, stated without any order: every
   * field that is present parses and lies in its set, and at least one
   * stopping condition is positive.
   */
  predicate Acceptable(speed: Entry<real>, deadline: Entry<real>, maxIterations: Entry<int>)
  {
    && speed.Parsed? && speed.value in LearningSpeeds
    && !deadline.Unparsable? && SecondsOf(deadline) in DeadlineSeconds
    && !maxIterations.Unparsable? && CountOf(maxIterations) in IterationCounts
    && (SecondsOf(deadline) > 0.0 || CountOf(maxIterations) > 0)
  }

  /** A configuration `train` may be started with. */
  predicate LegalConfig(c: Config)
  {
    && c.learningSpeed in LearningSpeeds
    && c.timeDeadline in {0.0, 500.0, 1000.0, 2000.0, 5000.0}
    && c.iterations in IterationCounts
    && (c.iterations > 0 || c.timeDeadline > 0.0)
  }

  /**
   * `validateInput` as a decision procedure: the first failing check, in
   * the source's order, decides the error; on success the deadline is
   * stored in seconds times 1000.
   */
  function Validate(speed: Entry<real>, deadline: Entry<real>, maxIterations: Entry<int>)
    : (r: Result<Config, ValidationError>)
    ensures r.Success? <==> Acceptable(speed, deadline, maxIterations)
    ensures r.Success? ==> LegalConfig(r.value)
    ensures r.Success? ==>
              && r.value.learningSpeed == speed.value
              && r.value.timeDeadline == SecondsOf(deadline) * 1000.0
              && r.value.iterations == CountOf(maxIterations)
  {
    if speed.Blank? then Failure(MissingLearningSpeed)
    else if speed.Unparsable? then Failure(NotANumber(LearningSpeedField))
    else if speed.value !in LearningSpeeds then Failure(LearningSpeedNotAllowed)
    else if maxIterations.Blank? && deadline.Blank? then Failure(MissingStoppingCondition)
    else if deadline.Unparsable? then Failure(NotANumber(DeadlineField))
    else if SecondsOf(deadline) !in DeadlineSeconds then Failure(DeadlineNotAllowed)
    else
      var millis := SecondsOf(deadline) * 1000.0;
      if maxIterations.Unparsable? then Failure(NotANumber(IterationsField))
      else
        var count := CountOf(maxIterations);
        if count == 0 && millis == 0.0 then Failure(NoPositiveLimit)
        else if count !in IterationCounts then Failure(IterationsNotAllowed)
        else Success(Config(speed.value, millis, count))
  }

  /** A blank learning speed is refused before any other field is looked at. */
  lemma BlankSpeedRefusedFirst(deadline: Entry<real>, maxIterations: Entry<int>)
    ensures Validate(Blank, deadline, maxIterations) == Failure(MissingLearningSpeed)
  {
  }

  /** A learning speed outside the set is refused whatever the other fields hold. */
  lemma SpeedOutsideSetRefused(rate: real, deadline: Entry<real>, maxIterations: Entry<int>)
    requires rate !in LearningSpeeds
    ensures Validate(Parsed(rate), deadline, maxIterations) == Failure(LearningSpeedNotAllowed)
  {
  }

  /**
   * With an allowed learning speed, two blank limits are refused as missing,
   * and a deadline of 0 with an iteration cap of 0 (each written or blank,
   * not both blank) is refused as having no positive limit.
   */
  lemma NoStoppingConditionRefused(rate: real, deadline: Entry<real>, maxIterations: Entry<int>)
    requires rate in LearningSpeeds
    requires deadline == Blank || deadline == Parsed(0.0)
    requires maxIterations == Blank || maxIterations == Parsed(0)
    ensures Validate(Parsed(rate), deadline, maxIterations)
         == if deadline.Blank? && maxIterations.Blank? then Failure(MissingStoppingCondition)
            else Failure(NoPositiveLimit)
  {
  }

  /**
   * `validateInput` with the cap's membership tested before the both-zero
   * rule.
   */
  function ValidateMembershipFirst(speed: Entry<real>, deadline: Entry<real>, maxIterations: Entry<int>)
    : Result<Config, ValidationError>
  {
    if speed.Blank? then Failure(MissingLearningSpeed)
    else if speed.Unparsable? then Failure(NotANumber(LearningSpeedField))
    else if speed.value !in LearningSpeeds then Failure(LearningSpeedNotAllowed)
    else if maxIterations.Blank? && deadline.Blank? then Failure(MissingStoppingCondition)
    else if deadline.Unparsable? then Failure(NotANumber(DeadlineField))
    else if SecondsOf(deadline) !in DeadlineSeconds then Failure(DeadlineNotAllowed)
    else if maxIterations.Unparsable? then Failure(NotANumber(IterationsField))
    else if CountOf(maxIterations) !in IterationCounts then Failure(IterationsNotAllowed)
    else if CountOf(maxIterations) == 0 && SecondsOf(deadline) == 0.0 then Failure(NoPositiveLimit)
    else Success(Config(speed.value, SecondsOf(deadline) * 1000.0, CountOf(maxIterations)))
  }

  /**
   * Swapping the last two checks changes no verdict: a cap outside the set
   * is never 0, and a cap of 0 is always in the set.
   */
  lemma LastTwoChecksCommute(speed: Entry<real>, deadline: Entry<real>, maxIterations: Entry<int>)
    ensures Validate(speed, deadline, maxIterations) == ValidateMembershipFirst(speed, deadline, maxIterations)
  {
  }
}
