# Car-control dashboard: the vehicle state machine

This project models the car-control window of the dashboard in `PyQt5-1.py`. The window
holds a speed from 0 to 50, a running flag, left and right turn-signal flags, a blink phase,
and the brake flags. Five timers drive it:

- an acceleration timer and a deceleration timer, each at 100 ms;
- an indicator refresh timer at 500 ms;
- a 30 ms frame timer in each of the two camera widgets.

Buttons and the keys A, D and S send the commands: start, stop, left, right, and brake
press/release.

The project has three files:

- `car_state.dfy` (module `CarState`) describes the window's state as a value `Car`. A Qt
  timer becomes `Timer(active, interval)`. `start(ms)` arms the timer with interval `ms`;
  `stop()` disarms it and keeps the interval. Each slot of the window is a pure function on
  `Car`, and `UpdateButtons` also returns the three indicator states as booleans. `Step`
  routes each signal (timeout, button signal, key event) to its slot, as the window's
  constructor connects them; a timer that is not running delivers no timeout. `Run`
  delivers a sequence of signals in order, as the single-threaded event loop does. The
  invariant `Consistent` is: `0 <= speed <= 50`; the hard-braking flag equals the brake
  flag; the brake-blinking flag is never set; an armed ramp timer runs at 100 ms; the
  refresh timer always runs at 500 ms; both camera timers are armed and disarmed
  together, at 30 ms.
- `car_properties.dfy` (module `CarProperties`) holds the lemmas about sequences of
  signals. They cover the invariant over every run and every reachable state, the two
  speed ramps (given in closed form by `AfterAccelerations` and `AfterDecelerations`), the
  blink phase over many refreshes, the rule that the brake light stays lit one refresh
  after release, and what the stop button leaves armed.
- `main_window.dfy` (module `CarWindow`) is the imperative layer. It has a class
  `MainWindow` whose fields are the window's state and timers, and a class
  `VideoStreamWidget` for each camera, whose `Start`/`Stop` change only that camera's
  timer. Each method changes the fields in place. It is proved to keep `Valid()` and to
  leave `Snapshot()` equal to the matching `CarState` function of the old snapshot.

## Behaviour of the code worth knowing

- Stop does not reset the speed and does not clear the signal or brake flags. It does not
  stop the acceleration timer either: after start then stop, both ramp timers are armed
  (`StopLeavesBothRampsArmed`).
- The deceleration timer keeps changing the speed after the car has stopped
  (`StoppedCarStillDecelerates`). So the speed changes while the car is not running, and
  both ramp timers can be armed at once.
- Pressing the brake only sets two flags. There is no 10 ms braking ramp. `is_hard_braking`
  is written but never read. Releasing the brake does not restart the acceleration timer.
- Each camera's frame timer starts when its widget is built, before the car is started.
  The first refresh of a car that was never started stops both cameras and arms the
  deceleration timer (`FirstRefreshStopsCameras`). Every later refresh while stopped does
  the same again.
- This file has no aspect-preserving resize and no way to change a camera's source.

## Model

| member | source | states |
|---|---|---|
| CarState.Initial | PyQt5-1.py:50-132 | after construction: speed 0, not running, every flag false, both ramp timers idle, refresh timer armed at 500 ms, cameras armed at 30 ms; the state is consistent |
| CarState.Accelerate | PyQt5-1.py:134-139 | below 50 the speed rises by exactly one and nothing else changes; at 50 the speed is kept and only the acceleration timer changes, to disarmed with its interval kept; consistency is preserved |
| CarState.Decelerate | PyQt5-1.py:141-146 | above 0 the speed falls by exactly one and nothing else changes; at 0 the speed is kept and the deceleration timer is disarmed; consistency is preserved |
| CarState.TurnLeft | PyQt5-1.py:148-150 | while running it flips the left flag and nothing else; while stopped it changes nothing |
| CarState.TurnRight | PyQt5-1.py:152-154 | while running it flips the right flag and nothing else; while stopped it changes nothing |
| CarState.BrakePressed | PyQt5-1.py:156-159 | while running it sets the brake and hard-braking flags and nothing else, leaving speed and ramps alone; while stopped it changes nothing |
| CarState.BrakeReleased | PyQt5-1.py:161-166 | while running it clears the brake, hard-braking and brake-blinking flags and sets the just-released flag; while stopped it changes nothing |
| CarState.UpdateButtons | PyQt5-1.py:168-196 | running: the blink phase flips; a turn indicator is lit iff its flag and the new phase are both set; the brake indicator is lit iff the brake is held or was just released; the just-released flag survives only while the brake is held; nothing else changes. Stopped: all indicators off, the state is that of stop, the blink phase is kept. The speed is never touched |
| CarState.KeyPressEvent | PyQt5-1.py:198-205 | stopped: no effect; running: A is the left command, D the right command, S the brake press; any other key has no effect |
| CarState.KeyReleaseEvent | PyQt5-1.py:207-210 | S released while running is the brake release; anything else has no effect |
| CarState.StartCar | PyQt5-1.py:212-217 | sets running, arms the acceleration timer at 100 ms and both camera timers at 30 ms, and changes nothing else |
| CarState.StopCar | PyQt5-1.py:219-224 | clears running, arms the deceleration timer at 100 ms, disarms both cameras keeping their interval, and keeps speed, flags and the acceleration timer |
| CarState.Step | PyQt5-1.py:84-132 | an acceleration, deceleration or refresh timeout of an armed timer runs accelerate, decelerate or the refresh; consistency is preserved; only the two ramp timeouts can change the speed; a timeout of a disarmed ramp timer has no effect |
| CarProperties.RunKeepsConsistent | PyQt5-1.py:134-224 | every sequence of signals preserves the invariant, in particular 0 <= speed <= 50 |
| CarProperties.ReachableIsConsistent | PyQt5-1.py:56-57 | every state reachable from construction is consistent, so its speed lies in 0..50 |
| CarProperties.SpeedOnlyFromRamps | PyQt5-1.py:148-224 | a sequence of signals without ramp timeouts leaves the speed unchanged |
| CarProperties.AccelerationStepMoves | PyQt5-1.py:135-137 | below the cap, one acceleration timeout advances the car one firing along its ramp |
| CarProperties.AccelerationStepDisarms | PyQt5-1.py:138-139 | at the cap, one acceleration timeout disarms the timer and keeps the speed at 50 |
| CarProperties.AccelerationRamp | PyQt5-1.py:134-139 | n acceleration timeouts give speed min(speed + n, 50); the timer is still armed iff speed + n <= 50; nothing else changes |
| CarProperties.DecelerationStepMoves | PyQt5-1.py:142-144 | above 0, one deceleration timeout moves the car one firing down its ramp |
| CarProperties.DecelerationStepDisarms | PyQt5-1.py:145-146 | at 0, one deceleration timeout disarms the timer and keeps the speed at 0 |
| CarProperties.DecelerationRamp | PyQt5-1.py:141-146 | n deceleration timeouts give speed max(speed - n, 0); the timer is still armed iff n <= speed; nothing else changes |
| CarProperties.RefreshCycles | PyQt5-1.py:168-191 | n refreshes of a running car flip the blink phase n times; after at least one refresh the just-released flag is gone unless the brake is held; nothing else changes |
| CarProperties.StartThenFortyTicks | PyQt5-1.py:212-214 | starting a fresh window and letting the acceleration timer fire 40 times gives speed 40 |
| CarProperties.CapHolds | PyQt5-1.py:134-139 | at speed 50, any number of further acceleration timeouts keep the speed at 50 and leave the timer disarmed |
| CarProperties.TurnTwiceRestores | PyQt5-1.py:148-154 | toggling the left or the right signal twice restores the state |
| CarProperties.LeftToggledTwiceIsDark | PyQt5-1.py:148-150 | starting with the left signal off, two left toggles leave it off, so the next refresh shows it dark whatever the blink phase |
| CarProperties.SignalAlternates | PyQt5-1.py:170-174 | with the left signal on, the left indicator is lit on exactly one of two consecutive refreshes |
| CarProperties.BrakeLitOneRefreshAfterRelease | PyQt5-1.py:184-191 | after release the brake indicator is lit on the next refresh and dark on the one after |
| CarState.ButtonHandlesKey | PyQt5-1.py:8-12 | the filter of the control buttons: a key is ignored exactly when it is space; an ignored key is never one of the window's command keys A, D or S |
| CarProperties.IgnoredKeyChangesNothing | PyQt5-1.py:7-12 | a key the buttons ignore (space) changes nothing when it reaches the window, pressed or released |
| CarProperties.StopLeavesBothRampsArmed | PyQt5-1.py:212-224 | after start then stop both ramp timers are armed; below the cap one firing of each leaves the speed unchanged |
| CarProperties.StoppedCarStillDecelerates | PyQt5-1.py:141-146 | after stop, a deceleration timeout still lowers the speed by one while the car is not running |
| CarProperties.FirstRefreshStopsCameras | PyQt5-1.py:192-196 | the first refresh of a window never started disarms both cameras and arms the deceleration timer at 100 ms |
| CarWindow.VideoStreamWidget.constructor | PyQt5-1.py:29-31 | a widget whose source opened has its frame timer armed at 30 ms |
| CarWindow.VideoStreamWidget.Start | PyQt5-1.py:46-47 | arms the frame timer at 30 ms |
| CarWindow.VideoStreamWidget.Stop | PyQt5-1.py:43-44 | disarms the frame timer, keeping its interval |
| CarWindow.MainWindow.constructor | PyQt5-1.py:50-132 | the new window is valid, owns two distinct fresh camera widgets, and is in the initial state |
| CarWindow.MainWindow.Accelerate | PyQt5-1.py:134-139 | updates the fields in place exactly as CarState.Accelerate; keeps the invariant |
| CarWindow.MainWindow.Decelerate | PyQt5-1.py:141-146 | updates the fields in place exactly as CarState.Decelerate; keeps the invariant |
| CarWindow.MainWindow.TurnLeft | PyQt5-1.py:148-150 | updates the fields in place exactly as CarState.TurnLeft |
| CarWindow.MainWindow.TurnRight | PyQt5-1.py:152-154 | updates the fields in place exactly as CarState.TurnRight |
| CarWindow.MainWindow.BrakePressed | PyQt5-1.py:156-159 | updates the fields in place exactly as CarState.BrakePressed |
| CarWindow.MainWindow.BrakeReleased | PyQt5-1.py:161-166 | updates the fields in place exactly as CarState.BrakeReleased |
| CarWindow.MainWindow.UpdateButtons | PyQt5-1.py:168-196 | updates the window and both cameras as CarState.UpdateButtons, calling StopCar when stopped, and returns its three indicator states |
| CarWindow.MainWindow.KeyPressEvent | PyQt5-1.py:198-205 | dispatches A, D and S to the matching slot while running, as CarState.KeyPressEvent |
| CarWindow.MainWindow.KeyReleaseEvent | PyQt5-1.py:207-210 | dispatches S release to the brake release while running, as CarState.KeyReleaseEvent |
| CarWindow.MainWindow.StartCar | PyQt5-1.py:212-217 | updates the window and starts both camera widgets, as CarState.StartCar |
| CarWindow.MainWindow.StopCar | PyQt5-1.py:219-224 | updates the window and stops both camera widgets, as CarState.StopCar |
| CarWindow.MainWindow.Deliver | PyQt5-1.py:84-132 | routes one signal to its connected slot, leaving the state as CarState.Step does |

## Left out

- Widget construction, layouts, icons, window title and size, and style-sheet strings.
  The indicators are booleans: true where the source sets a coloured background. The LCD
  always shows `speed`, so it is not modelled separately.
- Frame capture and display in `VideoStreamWidget.update_frame`: the OpenCV read, the
  colour conversion and the `QImage`/`QPixmap` conversion are calls into foreign
  libraries. A frame timeout changes nothing in the modelled state, so it is not an event
  of `Step`. `closeEvent`'s release of the capture is left out for the same reason.
- A camera source that fails to open. In that case the constructor returns before it
  creates the widget's timer, so any later `start`/`stop` on the widget fails with an
  attribute error. The model assumes both sources open.
- Real timer scheduling and the Qt event loop. A timer is an armed flag plus an interval,
  each firing is an explicit call, and the order of signals is the sequence given to
  `Run`. Which timer fires first when several are due is not modelled.
- Key auto-repeat, keyboard focus, and which widget receives a key first. A key that a
  button ignores is assumed to reach the window's key handler (the Qt propagation of an
  ignored event).
- The console messages printed on start, stop and a failed open.
- Python integers are unbounded, and the speed never leaves 0..50, so `int` needs no
  width.
