/**
 Properties of sequences of signals delivered to the car-control window: the invariant
 every reachable state keeps, what the two speed ramps and the refresh timer do when left
 to fire, the turn-signal and brake-light rules, and what the stop button leaves armed.
 */
module CarProperties {
  import opened CarState

  lemma {:induction false} RunAppend(c: Car, a: seq<Event>, b: seq<Event>)
    ensures Run(c, a + b) == Run(Run(c, a), b)
    decreases |a|
  {
    if a != [] {
      assert (a + b)[0] == a[0];
      assert (a + b)[1..] == a[1..] + b;
      RunAppend(Step(c, a[0]), a[1..], b);
    } else {
      assert a + b == b;
    }
  }

  /** Unfolding one occurrence of a repeated signal. */
  lemma RunRepeat(c: Car, e: Event, n: nat)
    requires n > 0
    ensures Run(c, Repeat(e, n)) == Run(Step(c, e), Repeat(e, n - 1))
  {
  }

  /** Every signal sequence keeps the state consistent, in particular 0 <= speed <= 50. */
  lemma {:induction false} RunKeepsConsistent(c: Car, es: seq<Event>)
    requires Consistent(c)
    ensures Consistent(Run(c, es))
    decreases |es|
  {
    if es != [] {
      RunKeepsConsistent(Step(c, es[0]), es[1..]);
    }
  }

  /** Every state the window can reach from construction satisfies the invariant. */
  lemma ReachableIsConsistent(c: Car)
    requires Reachable(c)
    ensures Consistent(c)
    ensures 0 <= c.speed <= MaxSpeed
  {
    var es :| Run(Initial(), es) == c;
    RunKeepsConsistent(Initial(), es);
  }

  /** Only the two ramp timeouts change the speed, over any sequence of signals. */
  lemma {:induction false} SpeedOnlyFromRamps(c: Car, es: seq<Event>)
    requires forall i :: 0 <= i < |es| ==> !es[i].AccelerationTimeout? && !es[i].DecelerationTimeout?
    ensures Run(c, es).speed == c.speed
    decreases |es|
  {
    if es != [] {
      SpeedOnlyFromRamps(Step(c, es[0]), es[1..]);
    }
  }

  /** Where `n` acceleration timeouts leave the car: one step per firing up to 50, then disarmed. */
  function AfterAccelerations(c: Car, n: nat): Car
  {
    if c.accelerationTimer.active then
      c.(speed := Min(c.speed + n, MaxSpeed),
         accelerationTimer := c.accelerationTimer.(active := c.speed + n <= MaxSpeed))
    else c
  }

  /** Where `n` deceleration timeouts leave the car: one step per firing down to 0, then disarmed. */
  function AfterDecelerations(c: Car, n: nat): Car
  {
    if c.decelerationTimer.active then
      c.(speed := Max(c.speed - n, 0),
         decelerationTimer := c.decelerationTimer.(active := n <= c.speed))
    else c
  }

  /** Away from its bound, an acceleration timeout moves the speed one step along the ramp. */
  lemma AccelerationStepMoves(c: Car, n: nat)
    requires SpeedInRange(c) && n > 0 && c.accelerationTimer.active && c.speed < MaxSpeed
    ensures AfterAccelerations(Step(c, AccelerationTimeout), n - 1) == AfterAccelerations(c, n)
  {
  }

  /** At its bound, an acceleration timeout disarms the timer and the speed stays at 50. */
  lemma AccelerationStepDisarms(c: Car, n: nat)
    requires SpeedInRange(c) && n > 0 && c.accelerationTimer.active && c.speed == MaxSpeed
    ensures AfterAccelerations(Step(c, AccelerationTimeout), n - 1) == AfterAccelerations(c, n)
  {
  }

  /**
   `n` acceleration timeouts: the speed moves by one per firing until it reaches its bound;
   the firing at the bound disarms the timer, after which nothing more is delivered.
   */
  lemma {:induction false} AccelerationRamp(c: Car, n: nat)
    requires SpeedInRange(c)
    ensures Run(c, Repeat(AccelerationTimeout, n)) == AfterAccelerations(c, n)
    decreases n
  {
    if n > 0 {
      RunRepeat(c, AccelerationTimeout, n);
      AccelerationRamp(Step(c, AccelerationTimeout), n - 1);
      if !c.accelerationTimer.active {
        assert Step(c, AccelerationTimeout) == c;
      } else if c.speed < MaxSpeed {
        AccelerationStepMoves(c, n);
      } else {
        AccelerationStepDisarms(c, n);
      }
    }
  }

  /** Away from its bound, a deceleration timeout moves the speed one step along the ramp. */
  lemma DecelerationStepMoves(c: Car, n: nat)
    requires SpeedInRange(c) && n > 0 && c.decelerationTimer.active && c.speed > 0
    ensures AfterDecelerations(Step(c, DecelerationTimeout), n - 1) == AfterDecelerations(c, n)
  {
  }

  /** At its bound, a deceleration timeout disarms the timer and the speed stays at 0. */
  lemma DecelerationStepDisarms(c: Car, n: nat)
    requires SpeedInRange(c) && n > 0 && c.decelerationTimer.active && c.speed == 0
    ensures AfterDecelerations(Step(c, DecelerationTimeout), n - 1) == AfterDecelerations(c, n)
  {
  }

  /**
   `n` deceleration timeouts: the speed moves by one per firing until it reaches its bound;
   the firing at the bound disarms the timer, after which nothing more is delivered.
   */
  lemma {:induction false} DecelerationRamp(c: Car, n: nat)
    requires SpeedInRange(c)
    ensures Run(c, Repeat(DecelerationTimeout, n)) == AfterDecelerations(c, n)
    decreases n
  {
    if n > 0 {
      RunRepeat(c, DecelerationTimeout, n);
      DecelerationRamp(Step(c, DecelerationTimeout), n - 1);
      if !c.decelerationTimer.active {
        assert Step(c, DecelerationTimeout) == c;
      } else if c.speed > 0 {
        DecelerationStepMoves(c, n);
      } else {
        DecelerationStepDisarms(c, n);
      }
    }
  }

  /**
   `n` refreshes of a running car: the blink phase has flipped `n` times, and after at
   least one refresh the pending brake flash is gone unless the brake is held.
   */
  lemma {:induction false} RefreshCycles(c: Car, n: nat)
    requires c.carRunning && c.refreshTimer.active
    ensures Run(c, Repeat(RefreshTimeout, n)) ==
      c.(blinkState := c.blinkState != (n % 2 == 1),
         brakeJustClicked := c.brakeJustClicked && (n == 0 || c.isBrakePressed))
    decreases n
  {
    if n > 0 {
      RunRepeat(c, RefreshTimeout, n);
      RefreshCycles(Step(c, RefreshTimeout), n - 1);
    }
  }

  /** Clicking start on a fresh window and letting the ramp fire 40 times gives speed 40. */
  lemma StartThenFortyTicks()
    ensures Run(Initial(), [StartClicked] + Repeat(AccelerationTimeout, 40)).speed == 40
  {
    RunAppend(Initial(), [StartClicked], Repeat(AccelerationTimeout, 40));
    AccelerationRamp(StartCar(Initial()), 40);
  }

  /** At the cap, further acceleration timeouts keep the speed at 50 and the timer disarms. */
  lemma CapHolds(c: Car, n: nat)
    requires c.speed == MaxSpeed && c.accelerationTimer.active && n > 0
    ensures Run(c, Repeat(AccelerationTimeout, n)).speed == MaxSpeed
    ensures !Run(c, Repeat(AccelerationTimeout, n)).accelerationTimer.active
  {
    AccelerationRamp(c, n);
  }

  /** Either turn command, given twice, restores the state. */
  lemma TurnTwiceRestores(c: Car)
    ensures TurnLeft(TurnLeft(c)) == c
    ensures TurnRight(TurnRight(c)) == c
  {
  }

  /**
   Toggling the left signal twice while running leaves it off, so the next refresh
   shows the left indicator off whatever the blink phase.
   */
  lemma LeftToggledTwiceIsDark(c: Car)
    requires c.carRunning && !c.leftBlinking
    ensures !UpdateButtons(TurnLeft(TurnLeft(c))).lights.left
  {
  }

  /** On two consecutive refreshes of a running car with the left signal on, it is lit exactly once. */
  lemma SignalAlternates(c: Car)
    requires c.carRunning && c.leftBlinking
    ensures UpdateButtons(c).lights.left != UpdateButtons(UpdateButtons(c).car).lights.left
  {
  }

  /**
   After the brake is released on a running car, the next refresh still lights the brake
   and the one after that does not.
   */
  lemma BrakeLitOneRefreshAfterRelease(c: Car)
    requires c.carRunning
    ensures var once := UpdateButtons(BrakeReleased(c));
            once.lights.brake && !UpdateButtons(once.car).lights.brake
  {
  }

  /** A space key that a control button ignores and passes to the window changes nothing. */
  lemma IgnoredKeyChangesNothing(c: Car, key: int)
    requires !ButtonHandlesKey(key)
    ensures KeyPressEvent(c, key) == c && KeyReleaseEvent(c, key) == c
  {
  }

  /**
   Stopping keeps the acceleration timer as it was and arms the deceleration timer, so
   after start then stop both ramps are armed; below the cap one firing of each leaves
   the speed where it was.
   */
  lemma StopLeavesBothRampsArmed(c: Car)
    requires Consistent(c) && c.speed < MaxSpeed
    ensures var s := StopCar(StartCar(c));
            s.accelerationTimer.active && s.decelerationTimer.active
            && Run(s, [AccelerationTimeout, DecelerationTimeout]).speed == c.speed
  {
  }

  /** The speed keeps changing after stop: the deceleration timer runs while the car is not running. */
  lemma StoppedCarStillDecelerates(c: Car)
    requires Consistent(c) && c.speed > 0
    ensures var s := Run(c, [StopClicked, DecelerationTimeout]);
            !s.carRunning && s.speed == c.speed - 1
  {
  }

  /** The first refresh of a window that was never started stops the cameras and arms deceleration. */
  lemma FirstRefreshStopsCameras()
    ensures var r := Run(Initial(), [RefreshTimeout]);
            !r.frontCamera.active && !r.rearCamera.active
            && r.decelerationTimer == Timer(true, RampInterval) && r.speed == 0
  {
  }
}
