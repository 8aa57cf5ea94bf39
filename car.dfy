/** The script's mutable frame state: the key table, the three control variables and the four
    drive hinges whose motor speed and axis the frame writes. */
module Vehicle {
  import opened Keyboard
  import opened Controller
  import opened FrameClamps

  /** The part of a hinge constraint the frame loop touches. */
  class Hinge {
    var motorEnabled: bool
    /** The target speed last passed to `setMotorSpeed`, in quarters. */
    var motorSpeed4: int
    /** The z component of the hinge's axis on the chassis, in tenths. */
    var axisZ10: int

    constructor (motorEnabled: bool)
      ensures this.motorEnabled == motorEnabled && motorSpeed4 == 0 && axisZ10 == 0
    {
      this.motorEnabled := motorEnabled;
      motorSpeed4 := 0;
      axisZ10 := 0;
    }
  }

  class Car {
    /** The latched key table: code to "currently held". */
    var keyMap: map<string, bool>
    /** `forwardVelocity`, in quarters. */
    var forward4: int
    /** `rightVelocity`, in tenths. */
    var right10: int
    var thrusting: bool

    /** The drive hinges: front left and right steer, back left and right are driven. */
    const constraintLF: Hinge
    const constraintRF: Hinge
    const constraintLB: Hinge
    const constraintRB: Hinge

    /** The four drive hinges are four different constraints. */
    ghost predicate Valid()
      reads this
    {
      && constraintLF != constraintRF && constraintLF != constraintLB && constraintLF != constraintRB
      && constraintRF != constraintLB && constraintRF != constraintRB
      && constraintLB != constraintRB
    }

    function State(): VehicleState
      reads this
    {
      VehicleState(forward4, right10, thrusting)
    }

    /** The state at load: an empty key table, the car at rest with straight steering, and
        motors enabled on the two rear hinges only. */
    constructor ()
      ensures Valid()
      ensures keyMap == map[] && State() == Rest
      ensures fresh(constraintLF) && fresh(constraintRF) && fresh(constraintLB) && fresh(constraintRB)
      ensures !constraintLF.motorEnabled && !constraintRF.motorEnabled
      ensures constraintLB.motorEnabled && constraintRB.motorEnabled
    {
      keyMap := map[];
      forward4, right10, thrusting := 0, 0, false;
      constraintLF := new Hinge(false);
      constraintRF := new Hinge(false);
      constraintLB := new Hinge(true);
      constraintRB := new Hinge(true);
    }

    /** The listener for both keydown and keyup: the event's code is held exactly when the
        event is a keydown. */
    method OnDocumentKey(e: KeyboardEvent)
      modifies this`keyMap
      ensures keyMap == Latch(old(keyMap), e.code, e.kind == "keydown")
    {
      keyMap := keyMap[e.code := e.kind == "keydown"];
    }

    /** The control block of one frame: its six `if` blocks in source order, after clearing
        `thrusting`. */
    method Tick()
      modifies this`forward4, this`right10, this`thrusting
      ensures State() == Step(old(State()), Sample(keyMap))
    {
      thrusting := false;
      ForwardKey();
      BackwardKey();
      LeftKey();
      RightKey();
      SpaceKey();
      CoastWhenIdle();
    }

    /** W or ArrowUp: one step forward while below the cap, and the car is thrusting. */
    method ForwardKey()
      modifies this`forward4, this`thrusting
      ensures forward4 == if Sample(keyMap).forward then Accelerate(old(forward4)) else old(forward4)
      ensures thrusting == (old(thrusting) || Sample(keyMap).forward)
    {
      if Held(keyMap, "KeyW") || Held(keyMap, "ArrowUp") {
        if forward4 < DriveCap { forward4 := forward4 + DriveStep; }
        thrusting := true;
      }
    }

    /** S or ArrowDown: one step back while above the negated cap, and the car is thrusting. */
    method BackwardKey()
      modifies this`forward4, this`thrusting
      ensures forward4 == if Sample(keyMap).backward then Reverse(old(forward4)) else old(forward4)
      ensures thrusting == (old(thrusting) || Sample(keyMap).backward)
    {
      if Held(keyMap, "KeyS") || Held(keyMap, "ArrowDown") {
        if forward4 > -DriveCap { forward4 := forward4 - DriveStep; }
        thrusting := true;
      }
    }

    /** A or ArrowLeft: one steering step left while above the left limit. */
    method LeftKey()
      modifies this`right10
      ensures right10 == if Sample(keyMap).left then SteerLeft(old(right10)) else old(right10)
    {
      if Held(keyMap, "KeyA") || Held(keyMap, "ArrowLeft") {
        if right10 > -SteerCap { right10 := right10 - SteerStep; }
      }
    }

    /** D or ArrowRight: one steering step right while below the right limit. */
    method RightKey()
      modifies this`right10
      ensures right10 == if Sample(keyMap).right then SteerRight(old(right10)) else old(right10)
    {
      if Held(keyMap, "KeyD") || Held(keyMap, "ArrowRight") {
        if right10 < SteerCap { right10 := right10 + SteerStep; }
      }
    }

    /** Space: the brake's two `if`s, one after the other. */
    method SpaceKey()
      modifies this`forward4
      ensures forward4 == if Sample(keyMap).brake then Brake(old(forward4)) else old(forward4)
    {
      if Held(keyMap, "Space") {
        if forward4 > 0 { forward4 := forward4 - DriveStep; }
        if forward4 < 0 { forward4 := forward4 + DriveStep; }
      }
    }

    /** Not thrusting: one coast step towards zero, again as two `if`s in sequence. */
    method CoastWhenIdle()
      modifies this`forward4
      ensures forward4 == if !thrusting then Coast(old(forward4)) else old(forward4)
    {
      if !thrusting {
        if forward4 > 0 { forward4 := forward4 - CoastStep; }
        if forward4 < 0 { forward4 := forward4 + CoastStep; }
      }
    }

    /** Both rear motors get the same speed, the drive speed, and both front axes the same z,
        the steering value; nothing else about the hinges changes. */
    method WriteMotors()
      requires Valid()
      modifies constraintLB`motorSpeed4, constraintRB`motorSpeed4, constraintLF`axisZ10, constraintRF`axisZ10
      ensures constraintLB.motorSpeed4 == constraintRB.motorSpeed4 == forward4
      ensures constraintLF.axisZ10 == constraintRF.axisZ10 == right10
      ensures constraintLF.motorSpeed4 == old(constraintLF.motorSpeed4)
      ensures constraintRF.motorSpeed4 == old(constraintRF.motorSpeed4)
      ensures constraintLB.axisZ10 == old(constraintLB.axisZ10)
      ensures constraintRB.axisZ10 == old(constraintRB.axisZ10)
    {
      constraintLB.motorSpeed4 := forward4;
      constraintRB.motorSpeed4 := forward4;
      constraintLF.axisZ10 := right10;
      constraintRF.axisZ10 := right10;
    }

    /** The modelled part of one animation frame: the capped time step for the physics world,
        the control block, the writes to the hinges, and the camera target raised to the floor. */
    method Animate(elapsed: real, pivot: Vec3) returns (delta: real, cameraTarget: Vec3)
      requires Valid()
      modifies this`forward4, this`right10, this`thrusting
      modifies constraintLB`motorSpeed4, constraintRB`motorSpeed4, constraintLF`axisZ10, constraintRF`axisZ10
      ensures delta == ClampDelta(elapsed)
      ensures State() == Step(old(State()), Sample(keyMap))
      ensures constraintLB.motorSpeed4 == constraintRB.motorSpeed4 == forward4
      ensures constraintLF.axisZ10 == constraintRF.axisZ10 == right10
      ensures constraintLF.motorSpeed4 == old(constraintLF.motorSpeed4)
      ensures constraintRF.motorSpeed4 == old(constraintRF.motorSpeed4)
      ensures constraintLB.axisZ10 == old(constraintLB.axisZ10)
      ensures constraintRB.axisZ10 == old(constraintRB.axisZ10)
      ensures cameraTarget == ClampTargetHeight(pivot)
    {
      delta := ClampDelta(elapsed);
      Tick();
      WriteMotors();
      cameraTarget := pivot;
      if cameraTarget.y < MinCameraHeight {
        cameraTarget := cameraTarget.(y := MinCameraHeight);
      }
    }
  }

  /** A worked example over two frames: pressing W and running one frame from load drives both
      rear motors at one step and leaves the front axes straight; releasing W and running a
      second frame coasts by a quarter. */
  method DriveThenCoast()
  {
    var car := new Car();
    car.OnDocumentKey(KeyboardEvent("keydown", "KeyW"));
    var delta, target := car.Animate(0.5, Vec3(0.0, 0.5, 4.0));
    assert delta == MaxDelta && target.y == MinCameraHeight;
    assert car.constraintLB.motorSpeed4 == car.constraintRB.motorSpeed4 == DriveStep;
    assert car.constraintLF.axisZ10 == 0 && car.thrusting;
    car.OnDocumentKey(KeyboardEvent("keyup", "KeyW"));
    delta, target := car.Animate(0.016, Vec3(0.0, 2.0, 4.0));
    assert delta == 0.016 && target.y == 2.0;
    assert car.constraintLB.motorSpeed4 == DriveStep - CoastStep && !car.thrusting;
  }
}
