/**
 The car-control window as the objects it is: a main window whose slots update its
 fields in place, and two camera widgets that each own a frame timer. Every slot is
 proved to move the window's state exactly as the matching function of CarState does,
 and to keep CarState.Consistent.
 */
module CarWindow {
  import CarState

  /** A camera view; only the arm state of its 30 ms frame timer is modelled. */
  class VideoStreamWidget {
    var timer: CarState.Timer

    /** Opening a source that opens starts the frame timer at 30 ms. */
    constructor ()
      ensures timer == CarState.Timer(true, CarState.FrameInterval)
    {
      timer := CarState.Timer(true, CarState.FrameInterval);
    }

    method Stop()
      modifies this
      ensures timer == CarState.StopTimer(old(timer))
    {
      timer := CarState.StopTimer(timer);
    }

    method Start()
      modifies this
      ensures timer == CarState.StartTimer(old(timer), CarState.FrameInterval)
    {
      timer := CarState.StartTimer(timer, CarState.FrameInterval);
    }
  }

  class MainWindow {
    var carRunning: bool
    var speed: int
    var isBrakePressed: bool
    var isHardBraking: bool
    var leftBlinking: bool
    var rightBlinking: bool
    var blinkState: bool
    var brakeBlinking: bool
    var brakeJustClicked: bool
    var accelerationTimer: CarState.Timer
    var decelerationTimer: CarState.Timer
    /** The indicator refresh timer. */
    var timer: CarState.Timer
    const frontCameraWidget: VideoStreamWidget
    const rearCameraWidget: VideoStreamWidget

    /** The window's state as a value. */
    function Snapshot(): CarState.Car
      reads this, frontCameraWidget, rearCameraWidget
    {
      CarState.Car(
        speed := speed, carRunning := carRunning,
        isBrakePressed := isBrakePressed, isHardBraking := isHardBraking,
        leftBlinking := leftBlinking, rightBlinking := rightBlinking,
        blinkState := blinkState, brakeBlinking := brakeBlinking,
        brakeJustClicked := brakeJustClicked,
        accelerationTimer := accelerationTimer, decelerationTimer := decelerationTimer,
        refreshTimer := timer,
        frontCamera := frontCameraWidget.timer, rearCamera := rearCameraWidget.timer)
    }

    ghost predicate Valid()
      reads this, frontCameraWidget, rearCameraWidget
    {
      frontCameraWidget != rearCameraWidget && CarState.Consistent(Snapshot())
    }

    constructor ()
      ensures Valid() && fresh(frontCameraWidget) && fresh(rearCameraWidget)
      ensures Snapshot() == CarState.Initial()
    {
      carRunning := false;
      speed := 0;
      isBrakePressed := false;
      isHardBraking := false;
      frontCameraWidget := new VideoStreamWidget();
      rearCameraWidget := new VideoStreamWidget();
      timer := CarState.Timer(true, CarState.RefreshInterval);
      leftBlinking := false;
      rightBlinking := false;
      blinkState := false;
      brakeBlinking := false;
      brakeJustClicked := false;
      accelerationTimer := CarState.Idle;
      decelerationTimer := CarState.Idle;
    }

    method Accelerate()
      requires Valid()
      modifies this
      ensures Valid()
      ensures Snapshot() == CarState.Accelerate(old(Snapshot()))
    {
      if speed < CarState.MaxSpeed {
        speed := speed + 1;
      } else {
        accelerationTimer := CarState.StopTimer(accelerationTimer);
      }
    }

    method Decelerate()
      requires Valid()
      modifies this
      ensures Valid()
      ensures Snapshot() == CarState.Decelerate(old(Snapshot()))
    {
      if speed > 0 {
        speed := speed - 1;
      } else {
        decelerationTimer := CarState.StopTimer(decelerationTimer);
      }
    }

    method TurnLeft()
      requires Valid()
      modifies this
      ensures Valid()
      ensures Snapshot() == CarState.TurnLeft(old(Snapshot()))
    {
      if carRunning {
        leftBlinking := !leftBlinking;
      }
    }

    method TurnRight()
      requires Valid()
      modifies this
      ensures Valid()
      ensures Snapshot() == CarState.TurnRight(old(Snapshot()))
    {
      if carRunning {
        rightBlinking := !rightBlinking;
      }
    }

    method BrakePressed()
      requires Valid()
      modifies this
      ensures Valid()
      ensures Snapshot() == CarState.BrakePressed(old(Snapshot()))
    {
      if carRunning {
        isBrakePressed := true;
        isHardBraking := true;
      }
    }

    method BrakeReleased()
      requires Valid()
      modifies this
      ensures Valid()
      ensures Snapshot() == CarState.BrakeReleased(old(Snapshot()))
    {
      if carRunning {
        isBrakePressed := false;
        isHardBraking := false;
        brakeBlinking := false;
        brakeJustClicked := true;
      }
    }

    /** The refresh slot; returns whether the left, right and brake buttons are lit. */
    method UpdateButtons() returns (left: bool, right: bool, brake: bool)
      requires Valid()
      modifies this, frontCameraWidget, rearCameraWidget
      ensures Valid()
      ensures Snapshot() == CarState.UpdateButtons(old(Snapshot())).car
      ensures CarState.Indicators(left, right, brake) == CarState.UpdateButtons(old(Snapshot())).lights
    {
      if carRunning {
        blinkState := !blinkState;
        if leftBlinking {
          left := blinkState;
        } else {
          left := false;
        }
        if rightBlinking {
          right := blinkState;
        } else {
          right := false;
        }
        if isBrakePressed {
          brake := true;
        } else if brakeJustClicked {
          brake := true;
          brakeJustClicked := false;
        } else {
          brake := false;
        }
      } else {
        left, right, brake := false, false, false;
        StopCar();
      }
    }

    method KeyPressEvent(key: int)
      requires Valid()
      modifies this
      ensures Valid()
      ensures Snapshot() == CarState.KeyPressEvent(old(Snapshot()), key)
    {
      if carRunning {
        if key == CarState.KeyA {
          TurnLeft();
        } else if key == CarState.KeyD {
          TurnRight();
        } else if key == CarState.KeyS {
          BrakePressed();
        }
      }
    }

    method KeyReleaseEvent(key: int)
      requires Valid()
      modifies this
      ensures Valid()
      ensures Snapshot() == CarState.KeyReleaseEvent(old(Snapshot()), key)
    {
      if carRunning {
        if key == CarState.KeyS {
          BrakeReleased();
        }
      }
    }

    method StartCar()
      requires Valid()
      modifies this, frontCameraWidget, rearCameraWidget
      ensures Valid()
      ensures Snapshot() == CarState.StartCar(old(Snapshot()))
    {
      carRunning := true;
      accelerationTimer := CarState.StartTimer(accelerationTimer, CarState.RampInterval);
      frontCameraWidget.Start();
      rearCameraWidget.Start();
    }

    method StopCar()
      requires Valid()
      modifies this, frontCameraWidget, rearCameraWidget
      ensures Valid()
      ensures Snapshot() == CarState.StopCar(old(Snapshot()))
    {
      carRunning := false;
      decelerationTimer := CarState.StartTimer(decelerationTimer, CarState.RampInterval);
      frontCameraWidget.Stop();
      rearCameraWidget.Stop();
    }

    /**
     Delivers one signal as the constructor's connections route it; a timeout of a timer
     that is not running is never delivered.
     */
    method Deliver(e: CarState.Event)
      requires Valid()
      modifies this, frontCameraWidget, rearCameraWidget
      ensures Valid()
      ensures Snapshot() == CarState.Step(old(Snapshot()), e)
    {
      match e
      case AccelerationTimeout =>
        if accelerationTimer.active {
          Accelerate();
        }
      case DecelerationTimeout =>
        if decelerationTimer.active {
          Decelerate();
        }
      case RefreshTimeout =>
        if timer.active {
          var _, _, _ := UpdateButtons();
        }
      case LeftClicked => TurnLeft();
      case RightClicked => TurnRight();
      case BrakeDown => BrakePressed();
      case BrakeUp => BrakeReleased();
      case StartClicked => StartCar();
      case StopClicked => StopCar();
      case KeyDown(k) => KeyPressEvent(k);
      case KeyUp(k) => KeyReleaseEvent(k);
    }
  }
}
