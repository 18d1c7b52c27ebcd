/** InputHandler (Assets/Scripts/Player/InputHandler.cs): once per frame it samples the
    devices into public flags that the movement and camera scripts read, and it keeps
    the small state machines behind them (the run latch, the enable gates and the
    debounce of the analog triggers). */
module Input {
  import opened Unity

  /** What Unity's Input class reports during one frame (GetAxisRaw / GetAxis values and
      GetButtonDown / GetButtonUp edges), grouped by the method that reads it. */
  datatype MovementSample = MovementSample(
    horizontal: real, vertical: real, runDown: bool, runUp: bool, crouchDown: bool, jumpDown: bool)

  datatype CameraSample = CameraSample(x: real, y: real, zoomDown: bool, zoomUp: bool)

  datatype ButtonSample = ButtonSample(
    rightTrigger: real, leftTrigger: real, leftClickDown: bool, rightClickDown: bool,
    destroyDown: bool, interactDown: bool, escapeMouseDown: bool, escapeControllerDown: bool)

  datatype DeviceSample = DeviceSample(movement: MovementSample, camera: CameraSample, buttons: ButtonSample)

  /** The run latch: a click switches running on, a release switches it off, and the
      release is looked at last, so a click and a release in one frame leave it off. */
  function RunLatch(isRunning: bool, clicked: bool, released: bool): (r: bool)
    ensures released ==> !r
    ensures clicked && !released ==> r
    ensures !clicked && !released ==> r == isRunning
  {
    if released then false else if clicked then true else isRunning
  }

  /** A button edge seen only while its action is enabled. */
  function Gated(enabled: bool, edge: bool): (r: bool)
    ensures !enabled ==> !r
    ensures enabled ==> r == edge
  {
    enabled && edge
  }

  /** Debounce state of one analog trigger: `check` is armed, `pressed` is this frame's
      click. */
  datatype Trigger = Trigger(check: bool, pressed: bool)

  /** One frame of the trigger debounce.  Read as an edge detector: the trigger clicks
      exactly when it is pulled now and the debounce is armed, and afterwards the
      debounce is armed exactly when the axis read 0 this frame. */
  function TriggerStep(check: bool, axis: real): (r: Trigger)
    ensures r.pressed <==> check && axis != 0.0
    ensures r.check <==> axis == 0.0
  {
    if check then
      var pressed := axis != 0.0;
      Trigger(!pressed, pressed)
    else
      Trigger(axis == 0.0, false)
  }

  /** The clicks a trigger produces over consecutive frames whose axis readings are axes,
      starting from the debounce state check. */
  function Clicks(check: bool, axes: seq<real>): (r: seq<bool>)
    ensures |r| == |axes|
    decreases |axes|
  {
    if axes == [] then []
    else
      var t := TriggerStep(check, axes[0]);
      [t.pressed] + Clicks(t.check, axes[1..])
  }

  /** Frame i clicks exactly when the axis is non-zero at i and was zero at i - 1 (or,
      at the first frame, when the debounce started armed): a rising edge. */
  lemma {:induction false} ClicksAreRisingEdges(check: bool, axes: seq<real>, i: nat)
    requires i < |axes|
    ensures Clicks(check, axes)[i] <==> axes[i] != 0.0 && (if i == 0 then check else axes[i - 1] == 0.0)
    decreases i
  {
    if i > 0 {
      var t := TriggerStep(check, axes[0]);
      ClicksAreRisingEdges(t.check, axes[1..], i - 1);
      if i == 1 {
        assert t.check <==> axes[0] == 0.0;
      } else {
        assert axes[1..][i - 2] == axes[i - 1];
      }
    }
  }

  /** One press gives one click: between two clicks the axis must have read 0, and a
      click is never followed by another in the next frame. */
  lemma OneClickPerPress(check: bool, axes: seq<real>, i: nat, j: nat)
    requires i < j < |axes|
    requires Clicks(check, axes)[i] && Clicks(check, axes)[j]
    ensures i + 1 < j
    ensures exists k :: i < k < j && axes[k] == 0.0
  {
    ClicksAreRisingEdges(check, axes, i);
    ClicksAreRisingEdges(check, axes, j);
    assert axes[j - 1] == 0.0;
  }

  /** A trigger held down (non-zero readings) clicks at most in the first frame. */
  lemma HeldTriggerClicksOnce(check: bool, axes: seq<real>, k: nat)
    requires 0 < k < |axes|
    requires forall i :: 0 <= i < |axes| ==> axes[i] != 0.0
    ensures !Clicks(check, axes)[k]
  {
    ClicksAreRisingEdges(check, axes, k);
  }

  /** Vector2 `movementInputVector == Vector2.zero` is Unity's approximate equality, so
      hasMovementInput is the negation of that test. */
  function HasMovementInput(v: Vec2): (r: bool)
    ensures r <==> SqrMagnitude2(v) >= VectorEpsilon * VectorEpsilon
    ensures r ==> v != Zero2
  {
    !ApproxEqual2(v, Zero2)
  }

  /** An axis reading that the approximate test cannot mistake for zero: exactly zero or
      at least kEpsilon away from it (true of keyboard readings -1, 0 and 1). */
  predicate Resolvable(c: real)
  {
    c == 0.0 || c * c >= VectorEpsilon * VectorEpsilon
  }

  /** For resolvable readings, hasMovementInput is exactly "the vector is not (0, 0)". */
  lemma HasMovementInputExact(v: Vec2)
    requires Resolvable(v.x) && Resolvable(v.y)
    ensures HasMovementInput(v) <==> v != Zero2
  {
    assert SqrMagnitude2(Vec2(v.x - 0.0, v.y - 0.0)) == v.x * v.x + v.y * v.y;
    assert 0.0 <= v.x * v.x && 0.0 <= v.y * v.y;
  }

  class InputHandler {
    // Movement input data
    var movementInputVector: Vec2
    var isRunning: bool
    var runClicked: bool
    var runReleased: bool
    var isCrouching: bool
    var crouchClicked: bool
    var jumpClicked: bool
    var hasMovementInput: bool
    // Camera input data
    var mouseInputVector: Vec2
    var zoomClicked: bool
    var zoomReleased: bool
    var isZoomedIn: bool
    // Additional input data
    var leftMouseClicked: bool
    var rightMouseClicked: bool
    var destroyClicked: bool
    var interactClicked: bool
    var escapeClickedMouse: bool
    var escapeClickedController: bool
    // Gates and debounce state
    var enableRunning: bool
    var enableCrouching: bool
    var enableJumping: bool
    var enableInput: bool
    var rightTriggerCheck: bool
    var rightTriggerPressed: bool
    var leftTriggerCheck: bool
    var leftTriggerPressed: bool

    /** The state ResetInputData leaves behind. */
    predicate Cleared()
      reads this
    {
      && movementInputVector == Zero2 && !isRunning && !runClicked && !runReleased
      && !isCrouching && !crouchClicked && !jumpClicked
      && mouseInputVector == Zero2
      && !leftMouseClicked && !rightMouseClicked && !destroyClicked && !interactClicked
      && !escapeClickedMouse && !escapeClickedController
    }

    /** The field initialisers followed by Awake, which calls ResetInputData. */
    constructor ()
      ensures Cleared()
      ensures enableRunning && !enableCrouching && !enableJumping && !enableInput
      ensures rightTriggerCheck && !rightTriggerPressed && leftTriggerCheck && !leftTriggerPressed
      ensures !hasMovementInput && !zoomClicked && !zoomReleased && !isZoomedIn
    {
      movementInputVector, isRunning, runClicked, runReleased := Zero2, false, false, false;
      isCrouching, crouchClicked, jumpClicked, hasMovementInput := false, false, false, false;
      mouseInputVector, zoomClicked, zoomReleased, isZoomedIn := Zero2, false, false, false;
      leftMouseClicked, rightMouseClicked, destroyClicked, interactClicked := false, false, false, false;
      escapeClickedMouse, escapeClickedController := false, false;
      enableRunning, enableCrouching, enableJumping, enableInput := true, false, false, false;
      rightTriggerCheck, rightTriggerPressed, leftTriggerCheck, leftTriggerPressed := true, false, true, false;
      new;
      ResetInputData();
    }

    /** Update: the three samplers run only while input is enabled.  The frame is the
        "nothing else changes" half: the gates, isZoomedIn, isCrouching and hasMovementInput
        belong to the other scripts and Update never writes them. */
    method Update(s: DeviceSample)
      modifies this`movementInputVector, this`runClicked, this`runReleased, this`isRunning,
        this`crouchClicked, this`jumpClicked, this`mouseInputVector, this`zoomClicked, this`zoomReleased,
        this`rightTriggerCheck, this`rightTriggerPressed, this`leftTriggerCheck, this`leftTriggerPressed,
        this`leftMouseClicked, this`rightMouseClicked, this`destroyClicked, this`interactClicked,
        this`escapeClickedMouse, this`escapeClickedController
      ensures !old(enableInput) ==> unchanged(this)
      ensures old(enableInput) ==> movementInputVector == Vec2(s.movement.horizontal, s.movement.vertical)
      ensures old(enableInput) ==> isRunning == RunLatch(old(isRunning), runClicked, runReleased)
      ensures old(enableInput) ==> runClicked == Gated(enableRunning, s.movement.runDown) && runReleased == Gated(enableRunning, s.movement.runUp)
      ensures old(enableInput) ==> crouchClicked == Gated(enableCrouching, s.movement.crouchDown) && jumpClicked == Gated(enableJumping, s.movement.jumpDown)
      ensures old(enableInput) ==> mouseInputVector == Vec2(s.camera.x, s.camera.y) && zoomClicked == s.camera.zoomDown && zoomReleased == s.camera.zoomUp
      ensures old(enableInput) ==> Trigger(rightTriggerCheck, rightTriggerPressed) == TriggerStep(old(rightTriggerCheck), s.buttons.rightTrigger)
      ensures old(enableInput) ==> Trigger(leftTriggerCheck, leftTriggerPressed) == TriggerStep(old(leftTriggerCheck), s.buttons.leftTrigger)
      ensures old(enableInput) ==> leftMouseClicked == (s.buttons.leftClickDown || rightTriggerPressed) && rightMouseClicked == (s.buttons.rightClickDown || leftTriggerPressed)
      ensures old(enableInput) ==> destroyClicked == s.buttons.destroyDown && interactClicked == s.buttons.interactDown
      ensures old(enableInput) ==> escapeClickedMouse == s.buttons.escapeMouseDown && escapeClickedController == s.buttons.escapeControllerDown
    {
      if enableInput {
        Sample(s);
      }
    }

    /** The body of Update once input is enabled: the three samplers in their order. */
    method Sample(s: DeviceSample)
      modifies this`movementInputVector, this`runClicked, this`runReleased, this`isRunning,
        this`crouchClicked, this`jumpClicked, this`mouseInputVector, this`zoomClicked, this`zoomReleased,
        this`rightTriggerCheck, this`rightTriggerPressed, this`leftTriggerCheck, this`leftTriggerPressed,
        this`leftMouseClicked, this`rightMouseClicked, this`destroyClicked, this`interactClicked,
        this`escapeClickedMouse, this`escapeClickedController
      ensures movementInputVector == Vec2(s.movement.horizontal, s.movement.vertical)
      ensures isRunning == RunLatch(old(isRunning), runClicked, runReleased)
      ensures runClicked == Gated(enableRunning, s.movement.runDown) && runReleased == Gated(enableRunning, s.movement.runUp)
      ensures crouchClicked == Gated(enableCrouching, s.movement.crouchDown) && jumpClicked == Gated(enableJumping, s.movement.jumpDown)
      ensures mouseInputVector == Vec2(s.camera.x, s.camera.y) && zoomClicked == s.camera.zoomDown && zoomReleased == s.camera.zoomUp
      ensures Trigger(rightTriggerCheck, rightTriggerPressed) == TriggerStep(old(rightTriggerCheck), s.buttons.rightTrigger)
      ensures Trigger(leftTriggerCheck, leftTriggerPressed) == TriggerStep(old(leftTriggerCheck), s.buttons.leftTrigger)
      ensures leftMouseClicked == (s.buttons.leftClickDown || rightTriggerPressed) && rightMouseClicked == (s.buttons.rightClickDown || leftTriggerPressed)
      ensures destroyClicked == s.buttons.destroyDown && interactClicked == s.buttons.interactDown
      ensures escapeClickedMouse == s.buttons.escapeMouseDown && escapeClickedController == s.buttons.escapeControllerDown
    {
      CameraInputData(s.camera);
      KeyboardInputData(s.movement, s.buttons);
    }

    /** MovementInputData followed by AdditionalInputData; they write disjoint fields. */
    method KeyboardInputData(m: MovementSample, b: ButtonSample)
      modifies this`movementInputVector, this`runClicked, this`runReleased, this`isRunning,
        this`crouchClicked, this`jumpClicked,
        this`rightTriggerCheck, this`rightTriggerPressed, this`leftTriggerCheck, this`leftTriggerPressed,
        this`leftMouseClicked, this`rightMouseClicked, this`destroyClicked, this`interactClicked,
        this`escapeClickedMouse, this`escapeClickedController
      ensures movementInputVector == Vec2(m.horizontal, m.vertical)
      ensures isRunning == RunLatch(old(isRunning), runClicked, runReleased)
      ensures runClicked == Gated(enableRunning, m.runDown) && runReleased == Gated(enableRunning, m.runUp)
      ensures crouchClicked == Gated(enableCrouching, m.crouchDown) && jumpClicked == Gated(enableJumping, m.jumpDown)
      ensures Trigger(rightTriggerCheck, rightTriggerPressed) == TriggerStep(old(rightTriggerCheck), b.rightTrigger)
      ensures Trigger(leftTriggerCheck, leftTriggerPressed) == TriggerStep(old(leftTriggerCheck), b.leftTrigger)
      ensures leftMouseClicked == (b.leftClickDown || rightTriggerPressed) && rightMouseClicked == (b.rightClickDown || leftTriggerPressed)
      ensures destroyClicked == b.destroyDown && interactClicked == b.interactDown
      ensures escapeClickedMouse == b.escapeMouseDown && escapeClickedController == b.escapeControllerDown
    {
      MovementInputData(m);
      AdditionalInputData(b);
    }

    method MovementInputData(m: MovementSample)
      modifies this`movementInputVector, this`runClicked, this`runReleased, this`isRunning,
        this`crouchClicked, this`jumpClicked
      ensures movementInputVector == Vec2(m.horizontal, m.vertical)
      ensures runClicked == Gated(enableRunning, m.runDown) && runReleased == Gated(enableRunning, m.runUp)
      ensures isRunning == RunLatch(old(isRunning), runClicked, runReleased)
      ensures crouchClicked == Gated(enableCrouching, m.crouchDown) && jumpClicked == Gated(enableJumping, m.jumpDown)
    {
      movementInputVector := Vec2(m.horizontal, m.vertical);
      RunInput(m.runDown, m.runUp);
      crouchClicked := if enableCrouching then m.crouchDown else false;
      jumpClicked := if enableJumping then m.jumpDown else false;
    }

    /** The Run part of MovementInputData: the gated edges and the latch they drive. */
    method RunInput(down: bool, up: bool)
      modifies this`runClicked, this`runReleased, this`isRunning
      ensures runClicked == Gated(enableRunning, down) && runReleased == Gated(enableRunning, up)
      ensures isRunning == RunLatch(old(isRunning), runClicked, runReleased)
    {
      runClicked := if enableRunning then down else false;
      runReleased := if enableRunning then up else false;
      if runClicked {
        isRunning := true;
      }
      if runReleased {
        isRunning := false;
      }
    }

    method CameraInputData(c: CameraSample)
      modifies this`mouseInputVector, this`zoomClicked, this`zoomReleased
      ensures mouseInputVector == Vec2(c.x, c.y) && zoomClicked == c.zoomDown && zoomReleased == c.zoomUp
    {
      mouseInputVector := Vec2(c.x, c.y);
      zoomClicked := c.zoomDown;
      zoomReleased := c.zoomUp;
    }

    method AdditionalInputData(b: ButtonSample)
      modifies this`rightTriggerCheck, this`rightTriggerPressed, this`leftTriggerCheck, this`leftTriggerPressed,
        this`leftMouseClicked, this`rightMouseClicked, this`destroyClicked, this`interactClicked,
        this`escapeClickedMouse, this`escapeClickedController
      ensures Trigger(rightTriggerCheck, rightTriggerPressed) == TriggerStep(old(rightTriggerCheck), b.rightTrigger)
      ensures Trigger(leftTriggerCheck, leftTriggerPressed) == TriggerStep(old(leftTriggerCheck), b.leftTrigger)
      ensures leftMouseClicked == (b.leftClickDown || rightTriggerPressed)
      ensures rightMouseClicked == (b.rightClickDown || leftTriggerPressed)
      ensures destroyClicked == b.destroyDown && interactClicked == b.interactDown
      ensures escapeClickedMouse == b.escapeMouseDown && escapeClickedController == b.escapeControllerDown
    {
      RightTriggerDebounce(b.rightTrigger);
      leftMouseClicked := b.leftClickDown || rightTriggerPressed;

      LeftTriggerDebounce(b.leftTrigger);
      rightMouseClicked := b.rightClickDown || leftTriggerPressed;

      ButtonEdges(b);
    }

    /** The plain button edges at the end of AdditionalInputData. */
    method ButtonEdges(b: ButtonSample)
      modifies this`destroyClicked, this`interactClicked, this`escapeClickedMouse, this`escapeClickedController
      ensures destroyClicked == b.destroyDown && interactClicked == b.interactDown
      ensures escapeClickedMouse == b.escapeMouseDown && escapeClickedController == b.escapeControllerDown
    {
      destroyClicked := b.destroyDown;
      interactClicked := b.interactDown;
      escapeClickedMouse := b.escapeMouseDown;
      escapeClickedController := b.escapeControllerDown;
    }

    /** The right trigger's half of AdditionalInputData: one step of its debounce. */
    method RightTriggerDebounce(axis: real)
      modifies this`rightTriggerCheck, this`rightTriggerPressed
      ensures Trigger(rightTriggerCheck, rightTriggerPressed) == TriggerStep(old(rightTriggerCheck), axis)
    {
      if rightTriggerCheck {
        rightTriggerPressed := axis != 0.0;
        rightTriggerCheck := !rightTriggerPressed;
      } else {
        rightTriggerPressed := false;
        if axis == 0.0 {
          rightTriggerCheck := true;
        }
      }
    }

    /** The left trigger's half of AdditionalInputData. */
    method LeftTriggerDebounce(axis: real)
      modifies this`leftTriggerCheck, this`leftTriggerPressed
      ensures Trigger(leftTriggerCheck, leftTriggerPressed) == TriggerStep(old(leftTriggerCheck), axis)
    {
      if leftTriggerCheck {
        leftTriggerPressed := axis != 0.0;
        leftTriggerCheck := !leftTriggerPressed;
      } else {
        leftTriggerPressed := false;
        if axis == 0.0 {
          leftTriggerCheck := true;
        }
      }
    }

    /** Clears the sampled movement, the run and crouch state, every click and the mouse
        vector; the gates, the zoom state, hasMovementInput and the trigger debounce are
        outside its frame and so keep their values. */
    method ResetInputData()
      modifies this`movementInputVector, this`isRunning, this`runClicked, this`runReleased,
        this`isCrouching, this`crouchClicked, this`jumpClicked, this`mouseInputVector,
        this`leftMouseClicked, this`rightMouseClicked, this`destroyClicked, this`interactClicked,
        this`escapeClickedMouse, this`escapeClickedController
      ensures Cleared()
    {
      ResetMovementData();
      ResetPointerData();
    }

    /** The movement half of ResetInputData. */
    method ResetMovementData()
      modifies this`movementInputVector, this`isRunning, this`runClicked, this`runReleased,
        this`isCrouching, this`crouchClicked, this`jumpClicked
      ensures movementInputVector == Zero2 && !isRunning && !runClicked && !runReleased
      ensures !isCrouching && !crouchClicked && !jumpClicked
    {
      movementInputVector := Zero2;
      isRunning := false;
      runClicked := false;
      runReleased := false;
      isCrouching := false;
      crouchClicked := false;
      jumpClicked := false;
    }

    /** The mouse vector and click half of ResetInputData. */
    method ResetPointerData()
      modifies this`mouseInputVector, this`leftMouseClicked, this`rightMouseClicked,
        this`destroyClicked, this`interactClicked, this`escapeClickedMouse, this`escapeClickedController
      ensures mouseInputVector == Zero2 && !leftMouseClicked && !rightMouseClicked
      ensures !destroyClicked && !interactClicked && !escapeClickedMouse && !escapeClickedController
    {
      mouseInputVector := Zero2;
      leftMouseClicked := false;
      rightMouseClicked := false;
      destroyClicked := false;
      interactClicked := false;
      escapeClickedMouse := false;
      escapeClickedController := false;
    }

    /** Called by the movement script at the start of its tick. */
    method MovementInputCheck()
      modifies this`hasMovementInput
      ensures hasMovementInput == HasMovementInput(movementInputVector)
      ensures hasMovementInput ==> movementInputVector != Zero2
    {
      if ApproxEqual2(movementInputVector, Zero2) {
        hasMovementInput := false;
      } else {
        hasMovementInput := true;
      }
    }
  }
}
