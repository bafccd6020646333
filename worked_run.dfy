/**
 * A worked run of `train` on the fixed training set, followed pass by pass.
 */
module WorkedRun {
  import opened Wrappers
  import opened Dataset
  import opened Validation
  import opened Training

  /**
   * A concrete run: with learning rate 0.05, a cap of 100 and no deadline,
   * passes 0 to 7 go on and pass 8 stops with weights (-0.08, 1.04).
   */
  lemma ExampleRunConverges(clock: nat -> int)
    ensures Verdict(Config(0.05, 0.0, 100), clock, 0).None?
    ensures Verdict(Config(0.05, 0.0, 100), clock, 1).None?
    ensures Verdict(Config(0.05, 0.0, 100), clock, 2).None?
    ensures Verdict(Config(0.05, 0.0, 100), clock, 3).None?
    ensures Verdict(Config(0.05, 0.0, 100), clock, 4).None?
    ensures Verdict(Config(0.05, 0.0, 100), clock, 5).None?
    ensures Verdict(Config(0.05, 0.0, 100), clock, 6).None?
    ensures Verdict(Config(0.05, 0.0, 100), clock, 7).None?
    ensures Verdict(Config(0.05, 0.0, 100), clock, 8) == Some(Converged(-0.08, 1.04, 8, clock(9) - clock(0)))
  {
    ExampleEarlyPassesGoOn(clock);
    ExampleLatePassesGoOn(clock);
    ExampleStopsAtPassEight(clock);
  }

  /** Pass 8 of the example run finds the streak at n and stops with Converged. */
  lemma ExampleStopsAtPassEight(clock: nat -> int)
    ensures Verdict(Config(0.05, 0.0, 100), clock, 8) == Some(Converged(-0.08, 1.04, 8, clock(9) - clock(0)))
  {
    ExampleTrajectory();
  }

  /** Passes 0 to 3 of the example run do not stop it. */
  lemma ExampleEarlyPassesGoOn(clock: nat -> int)
    ensures Verdict(Config(0.05, 0.0, 100), clock, 0).None?
    ensures Verdict(Config(0.05, 0.0, 100), clock, 1).None?
    ensures Verdict(Config(0.05, 0.0, 100), clock, 2).None?
    ensures Verdict(Config(0.05, 0.0, 100), clock, 3).None?
  {
    ExampleFirstRound();
    ExamplePassGoesOn(clock, 0, StateAfter(0.05, 0), StateAfter(0.05, 1));
    ExamplePassGoesOn(clock, 1, StateAfter(0.05, 1), StateAfter(0.05, 2));
    ExamplePassGoesOn(clock, 2, StateAfter(0.05, 2), StateAfter(0.05, 3));
    ExamplePassGoesOn(clock, 3, StateAfter(0.05, 3), StateAfter(0.05, 4));
  }

  /** Passes 4 to 7 of the example run do not stop it. */
  lemma ExampleLatePassesGoOn(clock: nat -> int)
    ensures Verdict(Config(0.05, 0.0, 100), clock, 4).None?
    ensures Verdict(Config(0.05, 0.0, 100), clock, 5).None?
    ensures Verdict(Config(0.05, 0.0, 100), clock, 6).None?
    ensures Verdict(Config(0.05, 0.0, 100), clock, 7).None?
  {
    ExampleTrajectory();
    ExamplePassGoesOn(clock, 4, StateAfter(0.05, 4), StateAfter(0.05, 5));
    ExamplePassGoesOn(clock, 5, StateAfter(0.05, 5), StateAfter(0.05, 6));
    ExamplePassGoesOn(clock, 6, StateAfter(0.05, 6), StateAfter(0.05, 7));
    ExamplePassGoesOn(clock, 7, StateAfter(0.05, 7), StateAfter(0.05, 8));
  }

  /** A pass of the example run with a short streak and small new weights goes on. */
  lemma ExamplePassGoesOn(clock: nat -> int, k: nat, s: TrainState, t: TrainState)
    requires k < 100 && StateAfter(0.05, k) == s && StateAfter(0.05, k + 1) == t
    requires s.streak < N && -1.0 <= t.w1 <= 2.0 && -1.0 <= t.w2 <= 2.0
    ensures Verdict(Config(0.05, 0.0, 100), clock, k).None?
  {
    PassGoesOn(Config(0.05, 0.0, 100), clock, k);
  }

  /**
   * The states of the example run: pass 0 lifts w2 to 1.2, pass 3 moves
   * the boundary point (2, 4) exactly onto the threshold, passes 4 to 7
   * find every point classified.
   */
  lemma ExampleTrajectory()
    ensures StateAfter(0.05, 1) == TrainState(0.0, 1.2, 1, 0)
    ensures StateAfter(0.05, 2) == TrainState(0.0, 1.2, 2, 1)
    ensures StateAfter(0.05, 3) == TrainState(0.0, 1.2, 3, 2)
    ensures StateAfter(0.05, 4) == TrainState(-0.08, 1.04, 4, 0)
    ensures StateAfter(0.05, 5) == TrainState(-0.08, 1.04, 5, 1)
    ensures StateAfter(0.05, 6) == TrainState(-0.08, 1.04, 6, 2)
    ensures StateAfter(0.05, 7) == TrainState(-0.08, 1.04, 7, 3)
    ensures StateAfter(0.05, 8) == TrainState(-0.08, 1.04, 8, 4)
  {
    ExampleFirstRound();
    ExampleSecondRound();
    StateAfterNext(0.05, 4, TrainState(-0.08, 1.04, 4, 0), TrainState(-0.08, 1.04, 5, 1));
    StateAfterNext(0.05, 5, TrainState(-0.08, 1.04, 5, 1), TrainState(-0.08, 1.04, 6, 2));
    StateAfterNext(0.05, 6, TrainState(-0.08, 1.04, 6, 2), TrainState(-0.08, 1.04, 7, 3));
    StateAfterNext(0.05, 7, TrainState(-0.08, 1.04, 7, 3), TrainState(-0.08, 1.04, 8, 4));
  }

  /** Passes 4 to 7 of the example run: at weights (-0.08, 1.04) every point is classified. */
  lemma ExampleSecondRound()
    ensures Step(TrainState(-0.08, 1.04, 4, 0), 0.05) == TrainState(-0.08, 1.04, 5, 1)
    ensures Step(TrainState(-0.08, 1.04, 5, 1), 0.05) == TrainState(-0.08, 1.04, 6, 2)
    ensures Step(TrainState(-0.08, 1.04, 6, 2), 0.05) == TrainState(-0.08, 1.04, 7, 3)
    ensures Step(TrainState(-0.08, 1.04, 7, 3), 0.05) == TrainState(-0.08, 1.04, 8, 4)
  {
    ExamplePass(TrainState(-0.08, 1.04, 4, 0), TrainState(-0.08, 1.04, 5, 1), Point(0.0, 6.0));
    ExamplePass(TrainState(-0.08, 1.04, 5, 1), TrainState(-0.08, 1.04, 6, 2), Point(1.0, 5.0));
    ExamplePass(TrainState(-0.08, 1.04, 6, 2), TrainState(-0.08, 1.04, 7, 3), Point(3.0, 3.0));
    ExamplePass(TrainState(-0.08, 1.04, 7, 3), TrainState(-0.08, 1.04, 8, 4), Point(2.0, 4.0));
  }

  /** Passes 0 to 3 of the example run: two updates, on (0, 6) and on (2, 4). */
  lemma ExampleFirstRound()
    ensures StateAfter(0.05, 1) == TrainState(0.0, 1.2, 1, 0)
    ensures StateAfter(0.05, 2) == TrainState(0.0, 1.2, 2, 1)
    ensures StateAfter(0.05, 3) == TrainState(0.0, 1.2, 3, 2)
    ensures StateAfter(0.05, 4) == TrainState(-0.08, 1.04, 4, 0)
  {
    ExampleCorrection();
    ExamplePass(Start, TrainState(0.0, 1.2, 1, 0), Point(0.0, 6.0));
    StateAfterNext(0.05, 0, Start, TrainState(0.0, 1.2, 1, 0));
    ExamplePass(TrainState(0.0, 1.2, 1, 0), TrainState(0.0, 1.2, 2, 1), Point(1.0, 5.0));
    StateAfterNext(0.05, 1, TrainState(0.0, 1.2, 1, 0), TrainState(0.0, 1.2, 2, 1));
    ExamplePass(TrainState(0.0, 1.2, 2, 1), TrainState(0.0, 1.2, 3, 2), Point(3.0, 3.0));
    StateAfterNext(0.05, 2, TrainState(0.0, 1.2, 2, 1), TrainState(0.0, 1.2, 3, 2));
    ExamplePass(TrainState(0.0, 1.2, 3, 2), TrainState(-0.08, 1.04, 4, 0), Point(2.0, 4.0));
    StateAfterNext(0.05, 3, TrainState(0.0, 1.2, 3, 2), TrainState(-0.08, 1.04, 4, 0));
  }

  lemma StateAfterNext(rate: real, k: nat, s: TrainState, t: TrainState)
    requires StateAfter(rate, k) == s && Step(s, rate) == t
    ensures StateAfter(rate, k + 1) == t
  {
  }

  /** Pass 3 of the example run: error -0.8 on (2, 4) moves the weights to (-0.08, 1.04). */
  lemma ExampleCorrection()
    ensures Updated(Point(2.0, 4.0), 0.0, 1.2, 0.05) == Weights(-0.08, 1.04)
  {
    assert Threshold - Diff(Point(2.0, 4.0), 0.0, 1.2) == -0.8;
    assert -0.8 * 2.0 * 0.05 == -0.08;
    assert 1.2 + -0.8 * 4.0 * 0.05 == 1.04;
  }

  /** One pass of the example run, from `s` to `t` on point `p`. */
  lemma ExamplePass(s: TrainState, t: TrainState, p: Point)
    requires Points[s.i % N] == p && t.i == s.i + 1
    requires NeedsUpdate(p, s.w1, s.w2) ==> Updated(p, s.w1, s.w2, 0.05) == Weights(t.w1, t.w2) && t.streak == 0
    requires !NeedsUpdate(p, s.w1, s.w2) ==> t == TrainState(s.w1, s.w2, s.i + 1, s.streak + 1)
    ensures Step(s, 0.05) == t
  {
  }
}
