/**
 The vehicle state of the car-control window as a value, with one pure function per
 slot of the window (timer callbacks, button handlers, key handlers), the wiring of
 signals to slots as a single-step function over events, and the properties that
 sequences of events keep.
 */
module CarState {

  /** Highest speed the acceleration ramp reaches. */
  const MaxSpeed := 50
  /** Interval, in milliseconds, of the acceleration and deceleration timers. */
  const RampInterval := 100
  /** Interval of the indicator refresh timer. */
  const RefreshInterval := 500
  /** Interval of each camera widget's frame timer. */
  const FrameInterval := 30

  /** Qt key codes the window and its buttons look at. */
  const KeyA := 0x41
  const KeyD := 0x44
  const KeyS := 0x53
  const KeySpace := 0x20

  /** A Qt timer seen from outside: whether it is running, and the last interval it was started with. */
  datatype Timer = Timer(active: bool, interval: int)

  /** A timer that has never been started: not running, interval 0. */
  const Idle := Timer(false, 0)

  /** `start(ms)` (re)arms a timer with interval `ms`. */
  function StartTimer(t: Timer, ms: int): Timer
  {
    Timer(true, ms)
  }

  /** `stop()` disarms a timer and keeps its interval. */
  function StopTimer(t: Timer): Timer
  {
    t.(active := false)
  }

  /** Everything the window keeps about the car, and the state of all five timers. */
  datatype Car = Car(
    speed: int,
    carRunning: bool,
    isBrakePressed: bool,
    isHardBraking: bool,
    leftBlinking: bool,
    rightBlinking: bool,
    blinkState: bool,
    brakeBlinking: bool,
    brakeJustClicked: bool,
    accelerationTimer: Timer,
    decelerationTimer: Timer,
    refreshTimer: Timer,
    frontCamera: Timer,
    rearCamera: Timer)

  /** Whether the left, right and brake buttons are lit after a refresh. */
  datatype Indicators = Indicators(left: bool, right: bool, brake: bool)

  const AllOff := Indicators(false, false, false)

  /** The state left behind by one refresh, and the indicators it showed. */
  datatype Refresh = Refresh(car: Car, lights: Indicators)

  predicate SpeedInRange(c: Car)
  {
    0 <= c.speed <= MaxSpeed
  }

  /**
   What every reachable state satisfies: the speed bound; the hard-braking flag mirrors
   the brake flag (both are always written together); the brake blinking flag is never
   set; an armed ramp timer runs every 100 ms; the refresh timer always runs every 500 ms;
   the two camera timers are always armed and disarmed together, at 30 ms.
   */
  predicate Consistent(c: Car)
  {
    && SpeedInRange(c)
    && c.isHardBraking == c.isBrakePressed
    && !c.brakeBlinking
    && (c.accelerationTimer.active ==> c.accelerationTimer.interval == RampInterval)
    && (c.decelerationTimer.active ==> c.decelerationTimer.interval == RampInterval)
    && c.refreshTimer == Timer(true, RefreshInterval)
    && c.frontCamera == c.rearCamera
    && c.frontCamera.interval == FrameInterval
  }

  /** The window right after construction (both camera sources opened). */
  function Initial(): (c: Car)
    ensures Consistent(c)
    ensures c.speed == 0 && !c.carRunning
    ensures !c.accelerationTimer.active && !c.decelerationTimer.active
    ensures c.frontCamera.active && c.rearCamera.active
    ensures !c.leftBlinking && !c.rightBlinking && !c.blinkState
    ensures !c.isBrakePressed && !c.brakeJustClicked
  {
    Car(speed := 0, carRunning := false, isBrakePressed := false, isHardBraking := false,
        leftBlinking := false, rightBlinking := false, blinkState := false,
        brakeBlinking := false, brakeJustClicked := false,
        accelerationTimer := Idle, decelerationTimer := Idle,
        refreshTimer := Timer(true, RefreshInterval),
        frontCamera := Timer(true, FrameInterval), rearCamera := Timer(true, FrameInterval))
  }

  /** Acceleration timer firing. */
  function Accelerate(c: Car): (r: Car)
    ensures c.speed < MaxSpeed ==> r == c.(speed := c.speed + 1)
    ensures c.speed >= MaxSpeed ==>
      r.speed == c.speed && !r.accelerationTimer.active
      && r == c.(accelerationTimer := r.accelerationTimer)
      && r.accelerationTimer.interval == c.accelerationTimer.interval
    ensures Consistent(c) ==> Consistent(r)
  {
    if c.speed < MaxSpeed then c.(speed := c.speed + 1)
    else c.(accelerationTimer := StopTimer(c.accelerationTimer))
  }

  /** Deceleration timer firing; it does not look at whether the car is running. */
  function Decelerate(c: Car): (r: Car)
    ensures c.speed > 0 ==> r == c.(speed := c.speed - 1)
    ensures c.speed <= 0 ==>
      r.speed == c.speed && !r.decelerationTimer.active
      && r == c.(decelerationTimer := r.decelerationTimer)
      && r.decelerationTimer.interval == c.decelerationTimer.interval
    ensures Consistent(c) ==> Consistent(r)
  {
    if c.speed > 0 then c.(speed := c.speed - 1)
    else c.(decelerationTimer := StopTimer(c.decelerationTimer))
  }

  /** Left turn button clicked. */
  function TurnLeft(c: Car): (r: Car)
    ensures c.carRunning ==> r.leftBlinking != c.leftBlinking && r == c.(leftBlinking := r.leftBlinking)
    ensures !c.carRunning ==> r == c
    ensures Consistent(c) ==> Consistent(r)
  {
    if c.carRunning then c.(leftBlinking := !c.leftBlinking) else c
  }

  /** Right turn button clicked. */
  function TurnRight(c: Car): (r: Car)
    ensures c.carRunning ==> r.rightBlinking != c.rightBlinking && r == c.(rightBlinking := r.rightBlinking)
    ensures !c.carRunning ==> r == c
    ensures Consistent(c) ==> Consistent(r)
  {
    if c.carRunning then c.(rightBlinking := !c.rightBlinking) else c
  }

  /** Brake button pressed: only flags change; no timer is touched. */
  function BrakePressed(c: Car): (r: Car)
    ensures c.carRunning ==> r == c.(isBrakePressed := true, isHardBraking := true)
    ensures !c.carRunning ==> r == c
    ensures r.speed == c.speed && r.accelerationTimer == c.accelerationTimer
    ensures r.decelerationTimer == c.decelerationTimer
    ensures Consistent(c) ==> Consistent(r)
  {
    if c.carRunning then c.(isBrakePressed := true, isHardBraking := true) else c
  }

  /** Brake button released: the brake light is asked to stay lit for one more refresh. */
  function BrakeReleased(c: Car): (r: Car)
    ensures c.carRunning ==>
      r == c.(isBrakePressed := false, isHardBraking := false,
              brakeBlinking := false, brakeJustClicked := true)
    ensures !c.carRunning ==> r == c
    ensures r.speed == c.speed && r.accelerationTimer == c.accelerationTimer
    ensures Consistent(c) ==> Consistent(r)
  {
    if c.carRunning then
      c.(isBrakePressed := false, isHardBraking := false,
         brakeBlinking := false, brakeJustClicked := true)
    else c
  }

  /** Start button clicked. */
  function StartCar(c: Car): (r: Car)
    ensures r.carRunning
    ensures r.accelerationTimer == Timer(true, RampInterval)
    ensures r.frontCamera == Timer(true, FrameInterval) && r.rearCamera == Timer(true, FrameInterval)
    ensures r == c.(carRunning := true, accelerationTimer := r.accelerationTimer,
                    frontCamera := r.frontCamera, rearCamera := r.rearCamera)
    ensures Consistent(c) ==> Consistent(r)
  {
    c.(carRunning := true,
       accelerationTimer := StartTimer(c.accelerationTimer, RampInterval),
       frontCamera := StartTimer(c.frontCamera, FrameInterval),
       rearCamera := StartTimer(c.rearCamera, FrameInterval))
  }

  /** Stop button clicked: speed, the signal and brake flags and the acceleration timer are kept. */
  function StopCar(c: Car): (r: Car)
    ensures !r.carRunning
    ensures r.decelerationTimer == Timer(true, RampInterval)
    ensures !r.frontCamera.active && !r.rearCamera.active
    ensures r.frontCamera.interval == c.frontCamera.interval
    ensures r.rearCamera.interval == c.rearCamera.interval
    ensures r == c.(carRunning := false, decelerationTimer := r.decelerationTimer,
                    frontCamera := r.frontCamera, rearCamera := r.rearCamera)
    ensures Consistent(c) ==> Consistent(r)
  {
    c.(carRunning := false,
       decelerationTimer := StartTimer(c.decelerationTimer, RampInterval),
       frontCamera := StopTimer(c.frontCamera),
       rearCamera := StopTimer(c.rearCamera))
  }

  /** Refresh timer firing: blink the turn signals and show the brake light. */
  function UpdateButtons(c: Car): (r: Refresh)
    ensures c.carRunning ==>
      && r.car.blinkState == !c.blinkState
      && (r.lights.left <==> c.leftBlinking && r.car.blinkState)
      && (r.lights.right <==> c.rightBlinking && r.car.blinkState)
      && (r.lights.brake <==> c.isBrakePressed || c.brakeJustClicked)
      && (r.car.brakeJustClicked <==> c.brakeJustClicked && c.isBrakePressed)
      && r.car == c.(blinkState := r.car.blinkState, brakeJustClicked := r.car.brakeJustClicked)
    ensures !c.carRunning ==> r.lights == AllOff && r.car == StopCar(c)
    ensures r.car.blinkState == (c.blinkState != c.carRunning)
    ensures r.car.speed == c.speed
    ensures Consistent(c) ==> Consistent(r.car)
  {
    if c.carRunning then
      var blink := !c.blinkState;
      var left := if c.leftBlinking then blink else false;
      var right := if c.rightBlinking then blink else false;
      var brake := c.isBrakePressed || c.brakeJustClicked;
      var justClicked := if c.isBrakePressed then c.brakeJustClicked else false;
      Refresh(c.(blinkState := blink, brakeJustClicked := justClicked),
              Indicators(left, right, brake))
    else
      Refresh(StopCar(c), AllOff)
  }

  /** Key press delivered to the window: A, D and S act only while the car runs. */
  function KeyPressEvent(c: Car, key: int): (r: Car)
    ensures !c.carRunning ==> r == c
    ensures c.carRunning && key == KeyA ==> r == TurnLeft(c)
    ensures c.carRunning && key == KeyD ==> r == TurnRight(c)
    ensures c.carRunning && key == KeyS ==> r == BrakePressed(c)
    ensures key != KeyA && key != KeyD && key != KeyS ==> r == c
    ensures Consistent(c) ==> Consistent(r)
  {
    if c.carRunning then
      if key == KeyA then TurnLeft(c)
      else if key == KeyD then TurnRight(c)
      else if key == KeyS then BrakePressed(c)
      else c
    else c
  }

  /** Key release delivered to the window: only S acts, and only while the car runs. */
  function KeyReleaseEvent(c: Car, key: int): (r: Car)
    ensures c.carRunning && key == KeyS ==> r == BrakeReleased(c)
    ensures !c.carRunning || key != KeyS ==> r == c
    ensures Consistent(c) ==> Consistent(r)
  {
    if c.carRunning && key == KeyS then BrakeReleased(c) else c
  }

  /**
   What a control button does with a key press: the space key is ignored (so it cannot
   press or click the button, and goes on to the window); every other key gets the
   default push-button handling.
   */
  function ButtonHandlesKey(key: int): (handled: bool)
    ensures !handled ==> key != KeyA && key != KeyD && key != KeyS
  {
    key != KeySpace
  }

  /** The signals the window reacts to: timer timeouts, button signals and keyboard events. */
  datatype Event =
    | AccelerationTimeout
    | DecelerationTimeout
    | RefreshTimeout
    | LeftClicked
    | RightClicked
    | BrakeDown
    | BrakeUp
    | StartClicked
    | StopClicked
    | KeyDown(key: int)
    | KeyUp(key: int)

  /**
   The connections made by the window's constructor: each signal runs its slot. A timer
   that is not running delivers no timeout.
   */
  function Step(c: Car, e: Event): (r: Car)
    ensures Consistent(c) ==> Consistent(r)
    ensures !e.AccelerationTimeout? && !e.DecelerationTimeout? ==> r.speed == c.speed
    ensures e.AccelerationTimeout? && c.accelerationTimer.active ==> r == Accelerate(c)
    ensures e.DecelerationTimeout? && c.decelerationTimer.active ==> r == Decelerate(c)
    ensures e.RefreshTimeout? && c.refreshTimer.active ==> r == UpdateButtons(c).car
    ensures e.AccelerationTimeout? && !c.accelerationTimer.active ==> r == c
    ensures e.DecelerationTimeout? && !c.decelerationTimer.active ==> r == c
  {
    match e
    case AccelerationTimeout => if c.accelerationTimer.active then Accelerate(c) else c
    case DecelerationTimeout => if c.decelerationTimer.active then Decelerate(c) else c
    case RefreshTimeout => if c.refreshTimer.active then UpdateButtons(c).car else c
    case LeftClicked => TurnLeft(c)
    case RightClicked => TurnRight(c)
    case BrakeDown => BrakePressed(c)
    case BrakeUp => BrakeReleased(c)
    case StartClicked => StartCar(c)
    case StopClicked => StopCar(c)
    case KeyDown(k) => KeyPressEvent(c, k)
    case KeyUp(k) => KeyReleaseEvent(c, k)
  }

  /** Delivering a sequence of signals one after another, as the event loop does. */
  function Run(c: Car, es: seq<Event>): Car
    decreases |es|
  {
    if es == [] then c else Run(Step(c, es[0]), es[1..])
  }

  /** `n` consecutive occurrences of one signal. */
  function Repeat(e: Event, n: nat): seq<Event>
  {
    if n == 0 then [] else [e] + Repeat(e, n - 1)
  }

  function Min(a: int, b: int): int { if a <= b then a else b }

  function Max(a: int, b: int): int { if a >= b then a else b }

  ghost predicate Reachable(c: Car)
  {
    exists es :: Run(Initial(), es) == c
  }
}
