/** MovementController (Assets/Scripts/Player/MovementController.cs): the per-frame
    locomotion steps over the controller's own fields, and the Crouch and Land coroutines
    as live tasks.  The physics queries become the Probes of a frame, the transforms the
    Body; the character controller's height and centre are fields of the class, the
    camera's local position is the CameraController's field. */
module Movement {
  import opened Unity
  import opened Transition
  import opened MovementRules
  import Input
  import Camera

  /** What the engine's physics reports in one frame: the ground sphere cast and the
      normal of its hit, the three wall casts, the ceiling cast and
      CharacterController.isGrounded (set by the previous Move). */
  datatype Probes = Probes(
    groundHit: bool, groundNormal: Vec3,
    lowerWallHit: bool, middleWallHit: bool, upperWallHit: bool,
    ceilingHit: bool, isGrounded: bool)

  /** The player's transform axes, the magnitude of the movement input vector (the
      square root the engine computes for .normalized) and whether the character
      controller and camera controller components are present. */
  datatype Body = Body(forward: Vec3, right: Vec3, inputMagnitude: real, componentsPresent: bool)

  /** The motion fields Update smooths from one frame to the next: the smoothed input, the
      movement direction (which the wall casts read before step 5 rewrites it), the
      smoothed direction and the smoothed speed. */
  datatype Motion = Motion(smoothInput: Vec2, direction: Vec3, smoothDirection: Vec3, smoothSpeed: real)

  /** The fields the movement input check and steps 2 to 8 write: hasMovementInput, the
      ground and its normal, the wall flag, the normalised and smoothed input, the
      direction, the target speed, the smoothed direction and speed and the final speed. */
  datatype Moving = Moving(
    hasMovementInput: bool, onGround: bool, groundNormal: Vec3, hittingWall: bool, normalizedInput: Vec2,
    smoothInput: Vec2, direction: Vec3, speed: real, smoothDirection: Vec3, smoothSpeed: real, finalSpeed: real)

  /** The camera position one pass of a task writes. */
  function RoutinePosition(s: MovementSettings, t: Task<Routine>): (r: Vec3)
    ensures t.capture.CrouchRoutine? ==> r.x == t.capture.crouch.cameraPosition.x && r.z == t.capture.crouch.cameraPosition.z
    ensures t.capture.LandRoutine? ==> r.x == t.capture.land.position.x && r.z == t.capture.land.position.z
  {
    match t.capture
    case CrouchRoutine(c) => CrouchCameraPosition(c, s.crouch.crouchTransitionCurve, t.progress)
    case LandRoutine(c) => LandPosition(c, s.jump.landTransitionCurve, t.progress)
  }

  /** The most recently started crouch task among ts. */
  function LastCrouch(ts: seq<Task<Routine>>): (r: Option<Task<Routine>>)
    ensures r.Some? ==> r.value in ts && r.value.capture.CrouchRoutine?
    decreases |ts|
  {
    if ts == [] then None
    else if ts[|ts| - 1].capture.CrouchRoutine? then Some(ts[|ts| - 1])
    else LastCrouch(ts[..|ts| - 1])
  }

  /** LastCrouch against its plain definition: none exactly when ts holds no crouch task,
      and otherwise a crouch task of ts with no crouch task after it. */
  lemma {:induction false} LastCrouchMeans(ts: seq<Task<Routine>>)
    ensures LastCrouch(ts).None? <==> forall i :: 0 <= i < |ts| ==> !ts[i].capture.CrouchRoutine?
    ensures LastCrouch(ts).Some? ==>
      exists i :: 0 <= i < |ts| && ts[i] == LastCrouch(ts).value && forall j :: i < j < |ts| ==> !ts[j].capture.CrouchRoutine?
    decreases |ts|
  {
    if ts != [] {
      var k := |ts| - 1;
      var init := ts[..k];
      LastCrouchMeans(init);
      assert forall i :: 0 <= i < k ==> init[i] == ts[i];
      if !ts[k].capture.CrouchRoutine? && LastCrouch(init).Some? {
        var i :| 0 <= i < k && init[i] == LastCrouch(init).value && forall j :: i < j < k ==> !init[j].capture.CrouchRoutine?;
        assert forall j :: i < j < |ts| ==> !ts[j].capture.CrouchRoutine?;
      }
    }
  }

  /** Some crouch task (CrouchEnds) or land task (LandEnds) among ts finishes on its next
      resumption. */
  predicate CrouchEnds(ts: seq<Task<Routine>>)
    decreases |ts|
  {
    ts != [] && (CrouchEnds(ts[..|ts| - 1]) || (ts[|ts| - 1].progress >= 1.0 && ts[|ts| - 1].capture.CrouchRoutine?))
  }

  predicate LandEnds(ts: seq<Task<Routine>>)
    decreases |ts|
  {
    ts != [] && (LandEnds(ts[..|ts| - 1]) || (ts[|ts| - 1].progress >= 1.0 && ts[|ts| - 1].capture.LandRoutine?))
  }

  /** Appending one task to those already resumed: how the survivors and the two end
      tests grow. */
  lemma AppendStep(done: seq<Task<Routine>>, t: Task<Routine>, dt: real)
    ensures Survivors(done + [t], dt) == Survivors(done, dt) + (if t.progress < 1.0 then [Resume(t, dt).value] else [])
    ensures CrouchEnds(done + [t]) == (CrouchEnds(done) || (t.progress >= 1.0 && t.capture.CrouchRoutine?))
    ensures LandEnds(done + [t]) == (LandEnds(done) || (t.progress >= 1.0 && t.capture.LandRoutine?))
  {
    assert (done + [t])[..|done|] == done;
  }

  /** Appending a task: it becomes the last crouch task if it is one. */
  lemma LastCrouchAppend(kept: seq<Task<Routine>>, u: Task<Routine>)
    ensures LastCrouch(kept + [u]) == if u.capture.CrouchRoutine? then Some(u) else LastCrouch(kept)
  {
    assert (kept + [u])[..|kept|] == kept;
  }

  /** CrouchEnds and LandEnds against their plain definition. */
  lemma {:induction false} EndsMeans(ts: seq<Task<Routine>>)
    ensures CrouchEnds(ts) <==> exists i :: 0 <= i < |ts| && ts[i].progress >= 1.0 && ts[i].capture.CrouchRoutine?
    ensures LandEnds(ts) <==> exists i :: 0 <= i < |ts| && ts[i].progress >= 1.0 && ts[i].capture.LandRoutine?
    ensures CrouchEnds(ts) || LandEnds(ts) <==> AnyFinishes(ts)
    decreases |ts|
  {
    if ts != [] {
      var init := ts[..|ts| - 1];
      EndsMeans(init);
      forall i | 0 <= i < |init| ensures init[i] == ts[i] { }
      if AnyFinishes(ts) && !AnyFinishes(init) {
        var i :| 0 <= i < |ts| && ts[i].progress >= 1.0;
        assert i == |ts| - 1;
      }
    }
  }

  /** The controller height and centre one pass of a crouch task writes. */
  function TaskHeight(s: MovementSettings, t: Task<Routine>): real
    requires t.capture.CrouchRoutine?
  {
    CrouchHeight(t.capture.crouch, s.crouch.crouchTransitionCurve, t.progress)
  }

  function TaskCenter(s: MovementSettings, t: Task<Routine>): Vec3
    requires t.capture.CrouchRoutine?
  {
    Lerp3(t.capture.crouch.currentCenter, t.capture.crouch.desiredCenter, Evaluate(s.crouch.crouchTransitionCurve, t.progress))
  }

  class MovementController {
    const settings: Settings
    /** The heights Start derives. */
    const heights: OrderedHeights
    /** runSpeed - walkSpeed, computed once in Start. */
    const speedDifference: real
    /** InputHandler.instance and CameraController.instance. */
    const input: Input.InputHandler
    const camera: Camera.CameraController

    var normalizedMovementInputVector: Vec2
    var smoothMovementInputVector: Vec2
    var movementDirection: Vec3
    var smoothMovementDirection: Vec3
    var finalMovementVector: Vec3
    var movementSpeed: real
    var smoothMovementSpeed: real
    var finalSmoothMovementSpeed: real

    var isHittingWall: bool
    var currentlyOnGround: bool
    var previouslyOnGround: bool
    /** groundHit.normal */
    var groundNormal: Vec3

    /** characterController.height and characterController.center */
    var controllerHeight: real
    var controllerCenter: Vec3
    var crouchAnimation: bool

    /** The head-bob additional multipliers HeadBobSetup copies from the speed
        percentages in Start. */
    const backwardsMovementFrequencyMultiplier: real
    const sideMovementFrequencyMultiplier: real
    var xHeadBobFrequency: real
    var yHeadBobFrequency: real
    var headBobHasBeenReset: bool
    var finalHeadBobOffset: Vec3
    var currentHeadBobHeight: real

    var inAirTimer: real
    var jumpCounter: int
    var enablePlayerMovement: bool

    /** The live Crouch and Land coroutines, in the order they were started. */
    var tasks: seq<Task<Routine>>

    /** What Start establishes about the constants. */
    predicate Configured()
    {
      speedDifference == settings.speed.runSpeed - settings.speed.walkSpeed
    }

    predicate CounterOk()
      reads this`jumpCounter
    {
      JumpCounterOk(jumpCounter, settings.jump.numberOfJumps)
    }

    predicate HeightOk()
      reads this`controllerHeight
    {
      heights.crouchingHeight <= controllerHeight <= heights.playerHeight
    }

    predicate TasksValid()
      reads this`tasks
    {
      TasksOk(heights, tasks)
    }

    /** The invariant every frame keeps: the constants as Start leaves them and the
        stance invariant. */
    ghost predicate Valid()
      reads input`isCrouching, input`enableJumping, input`enableCrouching, this`crouchAnimation, this`currentHeadBobHeight,
        this`controllerHeight, this`controllerCenter, camera`localPosition, this`tasks,
        this`headBobHasBeenReset, this`xHeadBobFrequency, this`yHeadBobFrequency, this`finalHeadBobOffset,
        this`inAirTimer, this`jumpCounter
    {
      Configured() && StanceOk(settings.jump.numberOfJumps, heights, StanceOf())
    }

    /** The field initialisers followed by Start: the input enables follow the player
        switches, the heights come from the character controller and the camera, the
        player starts standing and on the ground, and HeadBobSetup runs. */
    constructor (settings: Settings, input: Input.InputHandler, camera: Camera.CameraController,
                 playerHeight: real, skinWidth: real)
      requires 0.0 < playerHeight
      modifies input`enableRunning, input`enableCrouching, input`enableJumping
      ensures this.settings == settings && this.input == input && this.camera == camera
      ensures heights == StartHeights(settings.crouch.crouchPercent, playerHeight, skinWidth, camera.localPosition.y)
      ensures input.enableRunning == settings.switches.run && input.enableCrouching == settings.switches.crouch
      ensures input.enableJumping == settings.switches.jump
      ensures controllerHeight == playerHeight && controllerCenter == heights.playerCenter
      ensures currentlyOnGround && previouslyOnGround && currentHeadBobHeight == heights.cameraHeight
      ensures jumpCounter == 0 && inAirTimer == 0.0 && tasks == [] && !enablePlayerMovement
      ensures Valid()
    {
      this.settings := settings;
      this.input := input;
      this.camera := camera;
      var h := StartHeights(settings.crouch.crouchPercent, playerHeight, skinWidth, camera.localPosition.y);
      CrouchingBelowStanding(settings.crouch.crouchPercent, playerHeight, skinWidth, camera.localPosition.y);
      heights := h;
      speedDifference := settings.speed.runSpeed - settings.speed.walkSpeed;
      normalizedMovementInputVector, smoothMovementInputVector := Zero2, Zero2;
      movementDirection, smoothMovementDirection, finalMovementVector := Zero3, Zero3, Zero3;
      movementSpeed, smoothMovementSpeed, finalSmoothMovementSpeed := 0.0, 0.0, 0.0;
      isHittingWall := false;
      currentlyOnGround, previouslyOnGround := true, true;
      groundNormal := Zero3;
      controllerHeight, controllerCenter := playerHeight, h.playerCenter;
      crouchAnimation := false;
      backwardsMovementFrequencyMultiplier := settings.speed.backwardsSpeedPercent;
      sideMovementFrequencyMultiplier := settings.speed.sideSpeedPercent;
      xHeadBobFrequency, yHeadBobFrequency := 0.0, 0.0;
      headBobHasBeenReset := false;
      finalHeadBobOffset := Zero3;
      currentHeadBobHeight := h.cameraHeight;
      inAirTimer, jumpCounter := 0.0, 0;
      enablePlayerMovement := false;
      tasks := [];
      new;
      input.enableRunning := settings.switches.run;
      input.enableCrouching := settings.switches.crouch;
      input.enableJumping := settings.switches.jump;
    }

    // ----- Steps 2 to 9 -----

    /** Step 2: whether the ground sphere cast hit, and the normal it hit. */
    method GroundCheck(p: Probes)
      modifies this`currentlyOnGround, this`groundNormal
      ensures currentlyOnGround == p.groundHit && groundNormal == p.groundNormal
    {
      currentlyOnGround := p.groundHit;
      groundNormal := p.groundNormal;
    }

    /** Step 3: the wall casts run only with movement input and a non-zero movement
        direction (last frame's, since step 5 comes later), the upper one only while
        standing; the player is against a wall when any cast that ran hit. */
    method WallCheck(p: Probes)
      modifies this`isHittingWall
      ensures var casting := input.hasMovementInput && SqrMagnitude3(movementDirection) > 0.0;
        isHittingWall <==> casting && (p.lowerWallHit || p.middleWallHit || (!input.isCrouching && p.upperWallHit))
    {
      var lowerWallHit, middleWallHit, upperWallHit := false, false, false;
      if input.hasMovementInput && SqrMagnitude3(movementDirection) > 0.0 {
        lowerWallHit := p.lowerWallHit;
        middleWallHit := p.middleWallHit;
        if !input.isCrouching {
          upperWallHit := p.upperWallHit;
        }
      }
      isHittingWall := middleWallHit || lowerWallHit || upperWallHit;
    }

    /** Step 4: the input vector normalised, then approached by a clamped lerp. */
    method SmoothMovementInput(inputMagnitude: real, dt: real)
      requires 0.0 <= inputMagnitude && inputMagnitude * inputMagnitude == SqrMagnitude2(input.movementInputVector)
      modifies this`normalizedMovementInputVector, this`smoothMovementInputVector
      ensures normalizedMovementInputVector == Normalize2(input.movementInputVector, inputMagnitude)
      ensures smoothMovementInputVector == Lerp2(old(smoothMovementInputVector), normalizedMovementInputVector, dt * settings.smooth.movementInputSpeed)
      ensures Between(smoothMovementInputVector.x, old(smoothMovementInputVector).x, normalizedMovementInputVector.x)
      ensures Between(smoothMovementInputVector.y, old(smoothMovementInputVector).y, normalizedMovementInputVector.y)
    {
      normalizedMovementInputVector := Normalize2(input.movementInputVector, inputMagnitude);
      var t := dt * settings.smooth.movementInputSpeed;
      LerpBounds(smoothMovementInputVector.x, normalizedMovementInputVector.x, t);
      LerpBounds(smoothMovementInputVector.y, normalizedMovementInputVector.y, t);
      smoothMovementInputVector := Lerp2(smoothMovementInputVector, normalizedMovementInputVector, dt * settings.smooth.movementInputSpeed);
    }

    /** Step 5: forward and right weighted by the smoothed input, flattened onto the
        ground when on it. */
    method MovementDirection(forward: Vec3, right: Vec3)
      modifies this`movementDirection
      ensures movementDirection == FlattenVectorOnSlopes(
        Add3(Scale3(forward, smoothMovementInputVector.y), Scale3(right, smoothMovementInputVector.x)),
        currentlyOnGround, groundNormal)
      ensures currentlyOnGround && SqrMagnitude3(groundNormal) >= FloatEpsilon ==> Dot3(movementDirection, groundNormal) == 0.0
    {
      var verticalDirection := Scale3(forward, smoothMovementInputVector.y);
      var horizontalDirection := Scale3(right, smoothMovementInputVector.x);
      var desiredDirection := Add3(verticalDirection, horizontalDirection);
      movementDirection := FlattenVectorOnSlopes(desiredDirection, currentlyOnGround, groundNormal);
    }

    /** Whether the player runs this frame: the run latch and PlayerCanRun. */
    predicate RunningAndCanRun(forward: Vec3)
      reads input`isRunning, input`isCrouching, this`smoothMovementDirection
    {
      input.isRunning && PlayerCanRun(forward, smoothMovementDirection, settings.speed.runAbilityThreshold, input.isCrouching)
    }

    /** Step 6: the target speed, by the overriding steps of TargetSpeed. */
    method MovementSpeed(forward: Vec3)
      modifies this`movementSpeed
      ensures movementSpeed == TargetSpeed(settings.speed, RunningAndCanRun(forward), input.isCrouching,
        input.hasMovementInput, input.movementInputVector)
    {
      if input.isRunning && PlayerCanRun(forward, smoothMovementDirection, settings.speed.runAbilityThreshold, input.isCrouching) {
        movementSpeed := settings.speed.runSpeed;
      } else {
        movementSpeed := settings.speed.walkSpeed;
      }
      if input.isCrouching {
        movementSpeed := settings.speed.crouchSpeed;
      }
      if !input.hasMovementInput {
        movementSpeed := 0.0;
      }
      if input.movementInputVector.y == -1.0 {
        movementSpeed := movementSpeed * settings.speed.backwardsSpeedPercent;
      }
      if input.movementInputVector.x != 0.0 && input.movementInputVector.y == 0.0 {
        movementSpeed := movementSpeed * settings.speed.sideSpeedPercent;
      }
    }

    /** Step 7: the smoothed direction approaches the movement direction. */
    method SmoothMovementDirection(dt: real)
      modifies this`smoothMovementDirection
      ensures smoothMovementDirection == Lerp3(old(smoothMovementDirection), movementDirection, dt * settings.smooth.directionSpeed)
    {
      smoothMovementDirection := Lerp3(smoothMovementDirection, movementDirection, dt * settings.smooth.directionSpeed);
    }

    /** Step 8: the smoothed speed approaches the target speed and ends between its old
        value and the target; the final speed is the run remap while running (with the
        new smoothed direction), the smoothed speed otherwise. */
    method SmoothMovementSpeed(forward: Vec3, dt: real)
      requires Configured()
      modifies this`smoothMovementSpeed, this`finalSmoothMovementSpeed
      ensures smoothMovementSpeed == Lerp(old(smoothMovementSpeed), movementSpeed, dt * settings.smooth.velocitySpeed)
      ensures Between(smoothMovementSpeed, old(smoothMovementSpeed), movementSpeed)
      ensures finalSmoothMovementSpeed == FinalSpeed(settings.speed, RunningAndCanRun(forward), smoothMovementSpeed)
    {
      LerpBounds(smoothMovementSpeed, movementSpeed, dt * settings.smooth.velocitySpeed);
      smoothMovementSpeed := Lerp(smoothMovementSpeed, movementSpeed, dt * settings.smooth.velocitySpeed);
      var s := smoothMovementSpeed;
      if input.isRunning && PlayerCanRun(forward, smoothMovementDirection, settings.speed.runAbilityThreshold, input.isCrouching) {
        var transitionPercentage := InverseLerp(settings.speed.walkSpeed, settings.speed.runSpeed, s);
        finalSmoothMovementSpeed := Evaluate(settings.speed.runTransitionCurve, transitionPercentage) * speedDifference + settings.speed.walkSpeed;
      } else {
        finalSmoothMovementSpeed := s;
      }
    }

    /** Step 9's movement vector from the previous one: the horizontal components follow
        the direction at the speed; the vertical component gains the direction's vertical
        share only with gravity on and the controller grounded. */
    function Moved(v: Vec3, direction: Vec3, speed: real, isGrounded: bool): Vec3
    {
      var w := Scale3(direction, speed);
      Vec3(w.x, if settings.switches.gravity && isGrounded then v.y + w.y else v.y, w.z)
    }

    /** Step 9, with the smoothed direction and the final speed. */
    method CalculateMovement(isGrounded: bool)
      modifies this`finalMovementVector
      ensures finalMovementVector == Moved(old(finalMovementVector), smoothMovementDirection, finalSmoothMovementSpeed, isGrounded)
    {
      var smoothMovementInputVectorMagnitude := 1.0;
      var finalVector := Scale3(Scale3(smoothMovementDirection, finalSmoothMovementSpeed), smoothMovementInputVectorMagnitude);
      assert finalVector == Scale3(smoothMovementDirection, finalSmoothMovementSpeed);
      var y := finalMovementVector.y;
      if settings.switches.gravity {
        if isGrounded {
          y := y + finalVector.y;
        }
      }
      finalMovementVector := Vec3(finalVector.x, y, finalVector.z);
    }

    // ----- Step 10 and the Crouch coroutine -----

    /** Whether step 10 starts a crouch transition: crouch clicked while on the ground,
        unless the player is crouching and the ceiling check hits. */
    predicate CrouchStarts(ceilingHit: bool)
      reads input`crouchClicked, input`isCrouching, this`currentlyOnGround
    {
      input.crouchClicked && currentlyOnGround && !(input.isCrouching && ceilingHit)
    }

    /** The task StartCoroutine(Crouch()) leaves live: it captured the controller and
        camera of the moment and the targets for isCrouching after the flip, and has run
        its first pass. */
    ghost function CrouchTask(dt: real, height: real, center: Vec3, cameraPosition: Vec3, wasCrouching: bool): Task<Routine>
      requires Configured()
    {
      Start(CrouchRoutine(CrouchStart(heights, !wasCrouching, height, center, cameraPosition)),
            Speed(settings.crouch.crouchTransitionDuration), dt)
    }

    /** Step 10 on the stance a: when a crouch starts, isCrouching flips, jumping and
        crouching are disabled, the crouch animation is flagged, the head-bob height
        becomes the target camera height, and the new crouch task is appended after its
        first pass has written the controller and the camera; otherwise nothing changes. */
    ghost function CrouchStep(a: Stance, crouched: bool, dt: real): Stance
      requires Configured()
    {
      if !crouched then a
      else
        var t := CrouchTask(dt, a.height, a.center, a.cameraPosition, a.isCrouching);
        a.(isCrouching := !a.isCrouching, enableJumping := false, enableCrouching := false, crouchAnimation := true,
           headBobHeight := t.capture.crouch.desiredCameraHeight, height := TaskHeight(settings, t),
           center := TaskCenter(settings, t), cameraPosition := RoutinePosition(settings, t), tasks := a.tasks + [t])
    }

    /** Step 10. */
    method CrouchCheck(ceilingHit: bool, dt: real)
      requires Valid() && dt >= 0.0
      modifies input`isCrouching, input`enableJumping, input`enableCrouching, this`crouchAnimation, this`currentHeadBobHeight,
        this`controllerHeight, this`controllerCenter, camera`localPosition, this`tasks
      ensures StanceOf() == CrouchStep(old(StanceOf()), old(CrouchStarts(ceilingHit)), dt)
      ensures Valid()
    {
      if input.crouchClicked && currentlyOnGround {
        if input.isCrouching {
          if ceilingHit {
            return;
          }
        }
        StartCrouch(dt);
      }
    }

    /** StartCoroutine(Crouch()): everything up to the first `yield return null`. */
    method StartCrouch(dt: real)
      requires Valid() && dt >= 0.0
      modifies input`isCrouching, input`enableJumping, input`enableCrouching, this`crouchAnimation, this`currentHeadBobHeight,
        this`controllerHeight, this`controllerCenter, camera`localPosition, this`tasks
      ensures StanceOf() == CrouchStep(old(StanceOf()), true, dt)
      ensures Valid()
    {
      ghost var a := StanceOf();
      var currentHeight := controllerHeight;
      var currentCenter := controllerCenter;
      var cameraControllerPosition := camera.localPosition;
      CrouchBegin();
      var c := CrouchStart(heights, input.isCrouching, currentHeight, currentCenter, cameraControllerPosition);
      assert CaptureInRange(heights, c);
      var crouchSpeed := Speed(settings.crouch.crouchTransitionDuration);
      var progress := 0.0 + dt * crouchSpeed;
      CrouchPass(c, progress);
      var task := Task(progress, crouchSpeed, CrouchRoutine(c));
      assert task == Start(task.capture, crouchSpeed, dt);
      tasks := tasks + [task];
      CrouchStepMeans(a, dt);
    }

    /** The flags Crouch sets before its loop. */
    method CrouchBegin()
      modifies input`isCrouching, input`enableJumping, input`enableCrouching, this`crouchAnimation, this`currentHeadBobHeight
      ensures !input.enableJumping && !input.enableCrouching && crouchAnimation
      ensures input.isCrouching == !old(input.isCrouching)
      ensures currentHeadBobHeight == if input.isCrouching then heights.crouchingCameraHeight else heights.cameraHeight
    {
      input.enableJumping := false;
      input.enableCrouching := false;
      crouchAnimation := true;
      input.isCrouching := !input.isCrouching;
      if input.isCrouching {
        currentHeadBobHeight := heights.crouchingCameraHeight;
      } else {
        currentHeadBobHeight := heights.cameraHeight;
      }
    }

    /** One pass of the Crouch loop at the given progress: the controller's height and
        centre and the camera's height move from the captured values towards the target;
        within range when the capture is. */
    method CrouchPass(c: CrouchCapture, progress: real)
      requires Configured() && CaptureInRange(heights, c)
      modifies this`controllerHeight, this`controllerCenter, camera`localPosition
      ensures controllerHeight == CrouchHeight(c, settings.crouch.crouchTransitionCurve, progress)
      ensures controllerCenter == Lerp3(c.currentCenter, c.desiredCenter, Evaluate(settings.crouch.crouchTransitionCurve, progress))
      ensures camera.localPosition == CrouchCameraPosition(c, settings.crouch.crouchTransitionCurve, progress)
      ensures HeightOk()
    {
      var smoothCrouchTransitionPercentage := Evaluate(settings.crouch.crouchTransitionCurve, progress);
      CrouchHeightInRange(heights, c, settings.crouch.crouchTransitionCurve, progress);
      controllerHeight := Lerp(c.currentHeight, c.desiredHeight, smoothCrouchTransitionPercentage);
      controllerCenter := Lerp3(c.currentCenter, c.desiredCenter, smoothCrouchTransitionPercentage);
      var cameraControllerPosition := c.cameraPosition;
      cameraControllerPosition := cameraControllerPosition.(y := Lerp(c.cameraPosition.y, c.desiredCameraHeight, smoothCrouchTransitionPercentage));
      camera.localPosition := cameraControllerPosition;
    }

    /** What a crouch start promises: isCrouching flips and both enables go off, the
        crouch animation runs, the controller and the camera move towards the target pose
        of the new isCrouching (the crouching one when it is now true, the standing one
        otherwise) from the pose of the moment, keeping the height within range, and
        exactly that task is added; the head bob, the air timer and the jump counter are
        untouched. */
    lemma CrouchStepMeans(a: Stance, dt: real)
      requires Configured() && StanceOk(settings.jump.numberOfJumps, heights, a) && dt >= 0.0
      ensures var r := CrouchStep(a, true, dt);
        var t := CrouchTask(dt, a.height, a.center, a.cameraPosition, a.isCrouching);
        var target := if r.isCrouching then heights.crouchingHeight else heights.playerHeight;
        && r.isCrouching == !a.isCrouching && !r.enableJumping && !r.enableCrouching && r.crouchAnimation
        && r.headBobHeight == (if r.isCrouching then heights.crouchingCameraHeight else heights.cameraHeight)
        && Between(r.height, a.height, target)
        && Between(r.cameraPosition.y, a.cameraPosition.y, r.headBobHeight)
        && r.cameraPosition.x == a.cameraPosition.x && r.cameraPosition.z == a.cameraPosition.z
        && r.tasks == a.tasks + [t] && t.capture.CrouchRoutine? && t.progress == dt / settings.crouch.crouchTransitionDuration
        && r.BobPart() == a.BobPart() && r.inAirTimer == a.inAirTimer && r.jumpCounter == a.jumpCounter
        && StanceOk(settings.jump.numberOfJumps, heights, r)
    {
      var r := CrouchStep(a, true, dt);
      var t := CrouchTask(dt, a.height, a.center, a.cameraPosition, a.isCrouching);
      var c := t.capture.crouch;
      CrouchHeightInRange(heights, c, settings.crouch.crouchTransitionCurve, t.progress);
      CrouchCameraBetween(c, settings.crouch.crouchTransitionCurve, t.progress);
      var d := settings.crouch.crouchTransitionDuration;
      assert t.progress == dt / d by {
        assert t.progress == dt * Speed(d) && Speed(d) * d == 1.0;
      }
      assert TaskOk(heights, t);
      assert TasksOk(heights, r.tasks) by {
        forall i | 0 <= i < |r.tasks| ensures TaskOk(heights, r.tasks[i]) {
          if i < |a.tasks| { assert r.tasks[i] == a.tasks[i]; }
        }
      }
    }

    // ----- Step 11: head bob -----

    /** HeadBob's multipliers, from the run latch, isCrouching, the movement input vector
        and the smoothed direction of the moment (the run test is PlayerCanRun's). */
    function Multipliers(forward: Vec3, isRunning: bool, isCrouching: bool, movementInput: Vec2, smoothDirection: Vec3): BobMultipliers
    {
      BobMultipliersFor(settings.bobMultipliers,
        isRunning && PlayerCanRun(forward, smoothDirection, settings.speed.runAbilityThreshold, isCrouching),
        isCrouching, movementInput, backwardsMovementFrequencyMultiplier, sideMovementFrequencyMultiplier)
    }

    /** HeadBob's override chain for its three multipliers: the run multiplier and then
        the crouch one for the amplitude and the frequency, the backwards multiplier and
        then the side one for the additional multiplier. */
    method MultiplierChain(forward: Vec3) returns (m: BobMultipliers)
      ensures m == Multipliers(forward, input.isRunning, input.isCrouching, input.movementInputVector, smoothMovementDirection)
    {
      var bm := settings.bobMultipliers;
      var v := input.movementInputVector;
      var amplitudeMultiplier, frequencyMultiplier, additionalMultiplier;
      if RunningAndCanRun(forward) {
        amplitudeMultiplier := bm.runAmplitudeMultiplier;
      } else {
        amplitudeMultiplier := 1.0;
      }
      if input.isCrouching {
        amplitudeMultiplier := bm.crouchAmplitudeMultiplier;
      }
      if RunningAndCanRun(forward) {
        frequencyMultiplier := bm.runFrequencyMultiplier;
      } else {
        frequencyMultiplier := 1.0;
      }
      if input.isCrouching {
        frequencyMultiplier := bm.crouchFrequencyMultiplier;
      }
      if v.y == -1.0 {
        additionalMultiplier := backwardsMovementFrequencyMultiplier;
      } else {
        additionalMultiplier := 1.0;
      }
      if v.x != 0.0 && v.y == 0.0 {
        additionalMultiplier := sideMovementFrequencyMultiplier;
      }
      m := BobMultipliers(amplitudeMultiplier, frequencyMultiplier, additionalMultiplier);
    }

    /** One HeadBob on the bob b: the reset flag clears, each phase advances by
        dt * frequency * frequency multiplier, and the offset becomes the curves at the
        new phases scaled by amplitude, amplitude multiplier and additional multiplier,
        keeping its depth. */
    function Advance(b: Bob, m: BobMultipliers, dt: real): Bob
    {
      var s := settings.bob;
      var x := b.x + dt * s.xFrequency * m.frequency;
      var y := b.y + dt * s.yFrequency * m.frequency;
      Bob(false, x, y, Vec3(Evaluate(s.xCurve, x) * s.xAmplitude * m.amplitude * m.additional,
                            Evaluate(s.yCurve, y) * s.yAmplitude * m.amplitude * m.additional, b.offset.z))
    }

    /** Step 11 on the stance a, given whether the head bobs and HeadBob's multipliers m:
        bobbing runs HeadBob unless the crouch animation runs; not bobbing resets the bob
        once and, unless the crouch animation runs, eases the camera to the head-bob
        height. */
    ghost function BobStep(a: Stance, bobbing: bool, m: BobMultipliers, dt: real): Stance
    {
      var b :=
        if !bobbing then (if a.bobReset then a.BobPart() else Bob(true, 0.0, 0.0, Zero3))
        else if a.crouchAnimation then a.BobPart()
        else Advance(a.BobPart(), m, dt);
      var target := if bobbing then Add3(Vec3(0.0, a.headBobHeight, 0.0), b.offset) else Vec3(0.0, a.headBobHeight, 0.0);
      var position := if a.crouchAnimation then a.cameraPosition else Lerp3(a.cameraPosition, target, dt * settings.smooth.headBobSpeed);
      a.(bobReset := b.reset, xPhase := b.x, yPhase := b.y, bobOffset := b.offset, cameraPosition := position)
    }

    /** What step 11 promises on a stance whose bob is consistent: bobbing while the
        crouch animation runs leaves everything alone; bobbing otherwise advances the bob
        once; not bobbing leaves it reset; the bob stays consistent; the camera is left
        alone while the crouch animation runs and otherwise eased towards the head-bob
        height plus the new offset (zero when the head does not bob); and nothing else
        changes. */
    lemma BobStepMeans(a: Stance, bobbing: bool, m: BobMultipliers, dt: real)
      requires a.BobOk()
      ensures var r := BobStep(a, bobbing, m, dt);
        && (bobbing && a.crouchAnimation ==> r == a)
        && (bobbing && !a.crouchAnimation ==> r.BobPart() == Advance(a.BobPart(), m, dt))
        && (!bobbing ==> r.BobPart() == Bob(true, 0.0, 0.0, Zero3))
        && r.BobOk()
        && r.cameraPosition == (if a.crouchAnimation then a.cameraPosition
             else Lerp3(a.cameraPosition, Add3(Vec3(0.0, a.headBobHeight, 0.0), r.bobOffset), dt * settings.smooth.headBobSpeed))
        && r.(bobReset := a.bobReset, xPhase := a.xPhase, yPhase := a.yPhase, bobOffset := a.bobOffset,
             cameraPosition := a.cameraPosition) == a
    {
      if !bobbing {
        assert Add3(Vec3(0.0, a.headBobHeight, 0.0), Zero3) == Vec3(0.0, a.headBobHeight, 0.0);
      }
    }

    /** Step 11: bob while moving unless the crouch animation runs; otherwise reset the
        phases (once) and, unless the crouch animation runs, ease the camera back to the
        head-bob height. */
    method HeadBobCheck(forward: Vec3, dt: real)
      requires Valid()
      modifies this`headBobHasBeenReset, this`xHeadBobFrequency, this`yHeadBobFrequency, this`finalHeadBobOffset, camera`localPosition
      ensures StanceOf() == BobStep(old(StanceOf()), input.hasMovementInput && currentlyOnGround && !isHittingWall,
        Multipliers(forward, input.isRunning, input.isCrouching, input.movementInputVector, smoothMovementDirection), dt)
      ensures Valid()
    {
      ghost var a := StanceOf();
      if input.hasMovementInput && currentlyOnGround && !isHittingWall {
        if !crouchAnimation {
          HeadBob(forward, dt);
        }
      } else {
        if !headBobHasBeenReset {
          ResetHeadBob();
        }
        if !crouchAnimation {
          camera.localPosition := Lerp3(camera.localPosition, Vec3(0.0, currentHeadBobHeight, 0.0), dt * settings.smooth.headBobSpeed);
        }
      }
      BobKeeps(a, input.hasMovementInput && currentlyOnGround && !isHittingWall,
        Multipliers(forward, input.isRunning, input.isCrouching, input.movementInputVector, smoothMovementDirection), dt);
    }

    /** The head-bob fields as they stand. */
    ghost function BobOf(): Bob
      reads this`headBobHasBeenReset, this`xHeadBobFrequency, this`yHeadBobFrequency, this`finalHeadBobOffset
    {
      Bob(headBobHasBeenReset, xHeadBobFrequency, yHeadBobFrequency, finalHeadBobOffset)
    }

    /** HeadBob: the bob advances once with the multipliers of the override chain, and
        the camera eases towards the head-bob height plus the new offset. */
    method HeadBob(forward: Vec3, dt: real)
      modifies this`headBobHasBeenReset, this`xHeadBobFrequency, this`yHeadBobFrequency, this`finalHeadBobOffset, camera`localPosition
      ensures BobOf() == Advance(old(BobOf()),
        Multipliers(forward, input.isRunning, input.isCrouching, input.movementInputVector, smoothMovementDirection), dt)
      ensures camera.localPosition ==
        Lerp3(old(camera.localPosition), Add3(Vec3(0.0, currentHeadBobHeight, 0.0), finalHeadBobOffset), dt * settings.smooth.headBobSpeed)
    {
      var m := MultiplierChain(forward);
      ApplyBob(m, dt);
    }

    /** The rest of HeadBob once its multipliers m are known. */
    method ApplyBob(m: BobMultipliers, dt: real)
      modifies this`headBobHasBeenReset, this`xHeadBobFrequency, this`yHeadBobFrequency, this`finalHeadBobOffset, camera`localPosition
      ensures BobOf() == Advance(old(BobOf()), m, dt)
      ensures camera.localPosition ==
        Lerp3(old(camera.localPosition), Add3(Vec3(0.0, currentHeadBobHeight, 0.0), finalHeadBobOffset), dt * settings.smooth.headBobSpeed)
    {
      ghost var bob := BobOf();
      headBobHasBeenReset := false;
      AdvancePhases(m.frequency, dt);
      var b := settings.bob;
      var x, y := xHeadBobFrequency, yHeadBobFrequency;
      var offset := Vec3(Evaluate(b.xCurve, x) * b.xAmplitude * m.amplitude * m.additional,
                         Evaluate(b.yCurve, y) * b.yAmplitude * m.amplitude * m.additional,
                         finalHeadBobOffset.z);
      finalHeadBobOffset := offset;
      assert !BobOf().reset;
      assert BobOf().x == Advance(bob, m, dt).x;
      assert BobOf().y == Advance(bob, m, dt).y;
      assert BobOf().offset.x == Advance(bob, m, dt).offset.x;
      assert BobOf().offset.y == Advance(bob, m, dt).offset.y;
      assert BobOf().offset.z == Advance(bob, m, dt).offset.z;
      camera.localPosition := Lerp3(camera.localPosition, Add3(Vec3(0.0, currentHeadBobHeight, 0.0), offset), dt * settings.smooth.headBobSpeed);
    }

    /** The two head-bob phases advance by the frame time times their frequency times the
        frequency multiplier. */
    method AdvancePhases(frequencyMultiplier: real, dt: real)
      modifies this`xHeadBobFrequency, this`yHeadBobFrequency
      ensures xHeadBobFrequency == old(xHeadBobFrequency) + dt * settings.bob.xFrequency * frequencyMultiplier
      ensures yHeadBobFrequency == old(yHeadBobFrequency) + dt * settings.bob.yFrequency * frequencyMultiplier
    {
      xHeadBobFrequency := xHeadBobFrequency + dt * settings.bob.xFrequency * frequencyMultiplier;
      yHeadBobFrequency := yHeadBobFrequency + dt * settings.bob.yFrequency * frequencyMultiplier;
    }

    /** ResetHeadBob: both phases and the offset back to zero, and the reset recorded. */
    method ResetHeadBob()
      modifies this`headBobHasBeenReset, this`xHeadBobFrequency, this`yHeadBobFrequency, this`finalHeadBobOffset
      ensures headBobHasBeenReset && xHeadBobFrequency == 0.0 && yHeadBobFrequency == 0.0 && finalHeadBobOffset == Zero3
    {
      xHeadBobFrequency := 0.0;
      yHeadBobFrequency := 0.0;
      finalHeadBobOffset := Zero3;
      headBobHasBeenReset := true;
    }

    // ----- Step 12 and the Land coroutine -----

    /** The task StartCoroutine(Land()) leaves live: it captured the camera position of
        the moment and the impact chosen from the air time, and has run its first pass. */
    ghost function LandTask(dt: real, cameraPosition: Vec3, inAirTimer: real): Task<Routine>
      requires Configured()
    {
      Start(LandRoutine(LandCapture(cameraPosition, ImpactForce(settings.jump, inAirTimer))), Speed(settings.jump.landDuration), dt)
    }

    /** Step 12 on the stance a: on landing the new Land task is appended after its first
        pass has written the camera; otherwise nothing changes. */
    ghost function LandStep(a: Stance, landed: bool, dt: real): Stance
      requires Configured()
    {
      if !landed then a
      else
        var t := LandTask(dt, a.cameraPosition, a.inAirTimer);
        a.(cameraPosition := RoutinePosition(settings, t), tasks := a.tasks + [t])
    }

    /** Step 12: a landing starts exactly on the edge from airborne to grounded. */
    method LandCheck(dt: real)
      requires Valid() && dt >= 0.0
      modifies camera`localPosition, this`tasks
      ensures StanceOf() == LandStep(old(StanceOf()), !previouslyOnGround && currentlyOnGround, dt)
      ensures Valid()
    {
      if !previouslyOnGround && currentlyOnGround {
        StartLand(dt);
      }
    }

    /** StartCoroutine(Land()): everything up to the first `yield return null`. */
    method StartLand(dt: real)
      requires Valid() && dt >= 0.0
      modifies camera`localPosition, this`tasks
      ensures StanceOf() == LandStep(old(StanceOf()), true, dt)
      ensures Valid()
    {
      ghost var a := StanceOf();
      var landSpeed := Speed(settings.jump.landDuration);
      var impactForce := if inAirTimer >= settings.jump.highImpactTime then settings.jump.highImpactForce else settings.jump.lowImpactForce;
      var c := LandCapture(camera.localPosition, impactForce);
      var progress := 0.0 + dt * landSpeed;
      camera.localPosition := LandPosition(c, settings.jump.landTransitionCurve, progress);
      var task := Task(progress, landSpeed, LandRoutine(c));
      assert task == Start(task.capture, landSpeed, dt);
      tasks := tasks + [task];
      LandStepMeans(a, dt);
    }

    // ----- Steps 13 and 14 -----

    /** The air timer after Gravity: restarted on the ground, grown by the frame time in
        the air, untouched without gravity. */
    function AirTime(inAirTimer: real, isGrounded: bool, dt: real): real
    {
      if !settings.switches.gravity then inAirTimer else if isGrounded then 0.0 else inAirTimer + dt
    }

    /** The movement vector after Gravity and then JumpCheck, from the one step 9 left. */
    function FallAndJump(v: Vec3, isGrounded: bool, jumped: bool, dt: real): Vec3
    {
      var g :=
        if !settings.switches.gravity then v
        else if isGrounded then v.(y := -settings.gravity.groundedGravityForce)
        else Add3(v, Scale3(Scale3(settings.gravity.physicsGravity, settings.gravity.gravityMultiplier), dt));
      if jumped then g.(y := settings.speed.jumpSpeed) else g
    }

    /** JumpDecision for this frame's jump click and crouch state. */
    function Jump(jumpCounter: int, isGrounded: bool): JumpOutcome
      reads input`jumpClicked, input`isCrouching
    {
      JumpDecision(settings.switches.jump, settings.jump.numberOfJumps, jumpCounter, isGrounded, input.jumpClicked, input.isCrouching)
    }

    /** Step 13 on the stance a: only the air timer moves. */
    ghost function GravityStep(a: Stance, isGrounded: bool, dt: real): Stance
    {
      a.(inAirTimer := AirTime(a.inAirTimer, isGrounded, dt))
    }

    /** Step 14 on the stance a: the counter becomes JumpDecision's, a jump disables
        crouching, and a single jump disables jumping as well. */
    ghost function JumpStep(a: Stance, isGrounded: bool, jumpClicked: bool): Stance
    {
      var d := JumpDecision(settings.switches.jump, settings.jump.numberOfJumps, a.jumpCounter, isGrounded, jumpClicked, a.isCrouching);
      a.(jumpCounter := d.jumpCounter, enableJumping := a.enableJumping && !d.disablesJumping,
         enableCrouching := a.enableCrouching && !d.jumped)
    }

    /** Gravity (called before JumpCheck): grounded, the air timer restarts and the
        vertical speed becomes the grounded force downwards; airborne, the timer grows by
        the frame time and gravity accelerates the movement vector; nothing without
        gravity. */
    method Gravity(isGrounded: bool, dt: real)
      requires Valid() && dt >= 0.0
      modifies this`inAirTimer, this`finalMovementVector
      ensures StanceOf() == GravityStep(old(StanceOf()), isGrounded, dt)
      ensures Valid()
      ensures !settings.switches.gravity ==> inAirTimer == old(inAirTimer) && finalMovementVector == old(finalMovementVector)
      ensures settings.switches.gravity && isGrounded ==>
        inAirTimer == 0.0 && finalMovementVector == old(finalMovementVector).(y := -settings.gravity.groundedGravityForce)
      ensures settings.switches.gravity && !isGrounded ==>
        && inAirTimer == old(inAirTimer) + dt
        && finalMovementVector == Add3(old(finalMovementVector), Scale3(Scale3(settings.gravity.physicsGravity, settings.gravity.gravityMultiplier), dt))
    {
      if settings.switches.gravity {
        if isGrounded {
          inAirTimer := 0.0;
          finalMovementVector := finalMovementVector.(y := -settings.gravity.groundedGravityForce);
        } else {
          inAirTimer := inAirTimer + dt;
          finalMovementVector := Add3(finalMovementVector, Scale3(Scale3(settings.gravity.physicsGravity, settings.gravity.gravityMultiplier), dt));
        }
      }
    }

    /** JumpCheck: applies JumpDecision; a jump sets the vertical speed to the jump speed
        and disables crouching, and in single-jump mode disables jumping as well. */
    method JumpCheck(isGrounded: bool)
      requires Valid()
      modifies input`enableJumping, input`enableCrouching, this`finalMovementVector, this`jumpCounter
      ensures StanceOf() == JumpStep(old(StanceOf()), isGrounded, input.jumpClicked)
      ensures Valid()
      ensures finalMovementVector ==
        if Jump(old(jumpCounter), isGrounded).jumped then old(finalMovementVector).(y := settings.speed.jumpSpeed)
        else old(finalMovementVector)
    {
      JumpCounterBounded(settings.switches.jump, settings.jump.numberOfJumps, jumpCounter, isGrounded, input.jumpClicked, input.isCrouching);
      if settings.switches.jump {
        if settings.jump.numberOfJumps == 1 {
          if isGrounded {
            if input.jumpClicked && !input.isCrouching {
              input.enableJumping := false;
              input.enableCrouching := false;
              finalMovementVector := finalMovementVector.(y := settings.speed.jumpSpeed);
            }
          }
        } else if settings.jump.numberOfJumps > jumpCounter {
          if input.jumpClicked && !input.isCrouching {
            input.enableCrouching := false;
            finalMovementVector := finalMovementVector.(y := settings.speed.jumpSpeed);
            jumpCounter := jumpCounter + 1;
          }
        }
      }
    }

    // ----- Update -----

    /** The motion fields as they stand, for stating what a frame does to them. */
    ghost function MotionOf(): Motion
      reads this`smoothMovementInputVector, this`movementDirection, this`smoothMovementDirection, this`smoothMovementSpeed
    {
      Motion(smoothMovementInputVector, movementDirection, smoothMovementDirection, smoothMovementSpeed)
    }

    /** The fields steps 10 to 14 work on (all but the movement vector), as they stand. */
    ghost function StanceOf(): Stance
      reads input`isCrouching, input`enableJumping, input`enableCrouching, this`crouchAnimation, this`currentHeadBobHeight,
        this`controllerHeight, this`controllerCenter, camera`localPosition, this`tasks,
        this`headBobHasBeenReset, this`xHeadBobFrequency, this`yHeadBobFrequency, this`finalHeadBobOffset,
        this`inAirTimer, this`jumpCounter
    {
      Stance(input.isCrouching, input.enableJumping, input.enableCrouching, crouchAnimation, currentHeadBobHeight,
        controllerHeight, controllerCenter, camera.localPosition, tasks,
        headBobHasBeenReset, xHeadBobFrequency, yHeadBobFrequency, finalHeadBobOffset, inAirTimer, jumpCounter)
    }

    /** Steps 10 to 14 on the stance a, given whether a crouch starts, whether the head
        bobs and with which multipliers, whether the player lands, the engine's grounded
        flag and the jump click. */
    ghost function ActionsStep(a: Stance, crouched: bool, bobbing: bool, m: BobMultipliers, landed: bool,
                               isGrounded: bool, jumpClicked: bool, dt: real): Stance
      requires Configured()
    {
      JumpStep(GravityStep(LandStep(BobStep(CrouchStep(a, crouched, dt), bobbing, m, dt), landed, dt), isGrounded, dt),
        isGrounded, jumpClicked)
    }


    /** What a landing promises: exactly the Land task capturing the camera position and
        the impact of the air time of the moment is appended, its first pass writes the
        camera, and the stance invariant is kept. */
    lemma LandStepMeans(a: Stance, dt: real)
      requires Configured() && StanceOk(settings.jump.numberOfJumps, heights, a) && dt >= 0.0
      ensures var r := LandStep(a, true, dt);
        var t := LandTask(dt, a.cameraPosition, a.inAirTimer);
        && r.tasks == a.tasks + [t] && r.cameraPosition == RoutinePosition(settings, t)
        && t.capture == LandRoutine(LandCapture(a.cameraPosition, ImpactForce(settings.jump, a.inAirTimer)))
        && t.progress == dt / settings.jump.landDuration
        && r.(cameraPosition := a.cameraPosition, tasks := a.tasks) == a
        && StanceOk(settings.jump.numberOfJumps, heights, r)
    {
      var r := LandStep(a, true, dt);
      var t := LandTask(dt, a.cameraPosition, a.inAirTimer);
      var d := settings.jump.landDuration;
      assert t.progress == dt / d by {
        assert t.progress == dt * Speed(d) && Speed(d) * d == 1.0;
      }
      assert TaskOk(heights, t);
      assert TasksOk(heights, r.tasks) by {
        forall i | 0 <= i < |r.tasks| ensures TaskOk(heights, r.tasks[i]) {
          if i < |a.tasks| { assert r.tasks[i] == a.tasks[i]; }
        }
      }
    }

    /** Step 10 keeps the stance invariant. */
    lemma CrouchKeeps(a: Stance, crouched: bool, dt: real)
      requires Configured() && StanceOk(settings.jump.numberOfJumps, heights, a) && dt >= 0.0
      ensures StanceOk(settings.jump.numberOfJumps, heights, CrouchStep(a, crouched, dt))
    {
      if crouched {
        CrouchStepMeans(a, dt);
      }
    }

    /** Step 11 keeps the stance invariant. */
    lemma BobKeeps(a: Stance, bobbing: bool, m: BobMultipliers, dt: real)
      requires StanceOk(settings.jump.numberOfJumps, heights, a)
      ensures StanceOk(settings.jump.numberOfJumps, heights, BobStep(a, bobbing, m, dt))
    {
      BobStepMeans(a, bobbing, m, dt);
      var r := BobStep(a, bobbing, m, dt);
      assert r.jumpCounter == a.jumpCounter && r.inAirTimer == a.inAirTimer && r.height == a.height
        && r.headBobHeight == a.headBobHeight && r.tasks == a.tasks;
    }

    /** Step 12 keeps the stance invariant. */
    lemma LandKeeps(a: Stance, landed: bool, dt: real)
      requires Configured() && StanceOk(settings.jump.numberOfJumps, heights, a) && dt >= 0.0
      ensures StanceOk(settings.jump.numberOfJumps, heights, LandStep(a, landed, dt))
    {
      if landed {
        LandStepMeans(a, dt);
      }
    }

    /** Steps 13 and 14 keep the stance invariant. */
    lemma GravityJumpKeeps(a: Stance, isGrounded: bool, jumpClicked: bool, dt: real)
      requires StanceOk(settings.jump.numberOfJumps, heights, a) && dt >= 0.0
      ensures StanceOk(settings.jump.numberOfJumps, heights, JumpStep(GravityStep(a, isGrounded, dt), isGrounded, jumpClicked))
    {
      JumpCounterBounded(settings.switches.jump, settings.jump.numberOfJumps, a.jumpCounter, isGrounded, jumpClicked, a.isCrouching);
    }

    /** Steps 10 to 14 keep the stance invariant. */
    lemma ActionsKeep(a: Stance, crouched: bool, bobbing: bool, m: BobMultipliers, landed: bool,
                      isGrounded: bool, jumpClicked: bool, dt: real)
      requires Configured() && StanceOk(settings.jump.numberOfJumps, heights, a) && dt >= 0.0
      ensures StanceOk(settings.jump.numberOfJumps, heights, ActionsStep(a, crouched, bobbing, m, landed, isGrounded, jumpClicked, dt))
    {
      CrouchKeeps(a, crouched, dt);
      var c := CrouchStep(a, crouched, dt);
      BobKeeps(c, bobbing, m, dt);
      var b := BobStep(c, bobbing, m, dt);
      LandKeeps(b, landed, dt);
      GravityJumpKeeps(LandStep(b, landed, dt), isGrounded, jumpClicked, dt);
    }

    /** What steps 10 to 14 do to the stance, aspect by aspect: isCrouching flips and the
        animation starts exactly when a crouch starts; a crouch task and then a land task
        (capturing the camera the head bob left and the air time before gravity) are
        appended exactly when a crouch starts and when the player lands; the land pass
        writes the camera last, the head bob otherwise; the bob advances once when the
        head bobs and no crouch animation runs, is reset when it does not bob, and stays
        otherwise; the timer moves by AirTime and the counter by JumpDecision (which
        sees isCrouching after step 10); and the enables end on only when no crouch
        started and JumpDecision did not switch them off. */
    lemma ActionsMeans(a: Stance, crouched: bool, bobbing: bool, m: BobMultipliers, landed: bool,
                       isGrounded: bool, jumpClicked: bool, dt: real)
      requires Configured() && a.BobOk()
      ensures var r := ActionsStep(a, crouched, bobbing, m, landed, isGrounded, jumpClicked, dt);
        var bs := BobStep(CrouchStep(a, crouched, dt), bobbing, m, dt);
        var ct := CrouchTask(dt, a.height, a.center, a.cameraPosition, a.isCrouching);
        var lt := LandTask(dt, bs.cameraPosition, a.inAirTimer);
        var d := JumpDecision(settings.switches.jump, settings.jump.numberOfJumps, a.jumpCounter, isGrounded, jumpClicked, r.isCrouching);
        && r.isCrouching == (a.isCrouching != crouched)
        && r.crouchAnimation == (a.crouchAnimation || crouched)
        && r.tasks == a.tasks + (if crouched then [ct] else []) + (if landed then [lt] else [])
        && r.cameraPosition == (if landed then RoutinePosition(settings, lt) else bs.cameraPosition)
        && (bobbing && !r.crouchAnimation ==> r.BobPart() == Advance(a.BobPart(), m, dt))
        && (bobbing && r.crouchAnimation ==> r.BobPart() == a.BobPart())
        && (!bobbing ==> r.BobPart() == Bob(true, 0.0, 0.0, Zero3))
        && r.inAirTimer == AirTime(a.inAirTimer, isGrounded, dt)
        && r.jumpCounter == d.jumpCounter
        && r.enableJumping == (!crouched && a.enableJumping && !d.disablesJumping)
        && r.enableCrouching == (!crouched && a.enableCrouching && !d.jumped)
    {
      var c := CrouchStep(a, crouched, dt);
      assert c.BobOk();
      BobStepMeans(c, bobbing, m, dt);
    }

    /** The fields the movement input check and steps 2 to 8 write, as they stand. */
    ghost function MovingOf(): Moving
      reads input`hasMovementInput, this`currentlyOnGround, this`groundNormal, this`isHittingWall,
        this`normalizedMovementInputVector, this`smoothMovementInputVector, this`movementDirection,
        this`movementSpeed, this`smoothMovementDirection, this`smoothMovementSpeed, this`finalSmoothMovementSpeed
    {
      Moving(input.hasMovementInput, currentlyOnGround, groundNormal, isHittingWall, normalizedMovementInputVector,
        smoothMovementInputVector, movementDirection, movementSpeed, smoothMovementDirection, smoothMovementSpeed,
        finalSmoothMovementSpeed)
    }

    /** What the movement input check and steps 2 to 8 compute from the previous frame's
        motion m, the probes, the body, the run latch and the movement input vector:
        hasMovementInput from the approximate zero test, the ground and its normal from
        the probe, the wall casts (with last frame's direction), the normalised and
        smoothed input, the direction flattened onto the ground, the target speed (couldRun
        and crouching are the run test and isCrouching as step 6 sees them), the smoothed
        direction and speed, and the final speed with the run test redone on the new
        smoothed direction. */
    function Locomote(p: Probes, b: Body, dt: real, m: Motion, couldRun: bool, crouching: bool, isRunning: bool,
                      movementInput: Vec2): Moving
      requires 0.0 <= b.inputMagnitude && b.inputMagnitude * b.inputMagnitude == SqrMagnitude2(movementInput)
    {
      var hasInput := Input.HasMovementInput(movementInput);
      var normalized := Normalize2(movementInput, b.inputMagnitude);
      var smoothInput := Lerp2(m.smoothInput, normalized, dt * settings.smooth.movementInputSpeed);
      var direction := FlattenVectorOnSlopes(
        Add3(Scale3(b.forward, smoothInput.y), Scale3(b.right, smoothInput.x)), p.groundHit, p.groundNormal);
      var speed := TargetSpeed(settings.speed, couldRun, crouching, hasInput, movementInput);
      var smoothDirection := Lerp3(m.smoothDirection, direction, dt * settings.smooth.directionSpeed);
      var smoothSpeed := Lerp(m.smoothSpeed, speed, dt * settings.smooth.velocitySpeed);
      Moving(hasInput, p.groundHit, p.groundNormal,
        hasInput && SqrMagnitude3(m.direction) > 0.0 && (p.lowerWallHit || p.middleWallHit || (!crouching && p.upperWallHit)),
        normalized, smoothInput, direction, speed, smoothDirection, smoothSpeed,
        FinalSpeed(settings.speed, isRunning && PlayerCanRun(b.forward, smoothDirection, settings.speed.runAbilityThreshold, crouching),
          smoothSpeed))
    }

    /** The movement input check and steps 2 to 9, which write only hasMovementInput and
        the controller's own motion fields. */
    method Locomotion(p: Probes, b: Body, dt: real)
      requires Configured()
      requires 0.0 <= b.inputMagnitude && b.inputMagnitude * b.inputMagnitude == SqrMagnitude2(input.movementInputVector)
      modifies input`hasMovementInput, this`currentlyOnGround, this`groundNormal, this`isHittingWall,
        this`normalizedMovementInputVector, this`smoothMovementInputVector, this`movementDirection, this`movementSpeed,
        this`smoothMovementDirection, this`smoothMovementSpeed, this`finalSmoothMovementSpeed, this`finalMovementVector
      ensures MovingOf() == Locomote(p, b, dt, old(MotionOf()), old(RunningAndCanRun(b.forward)), input.isCrouching,
        input.isRunning, input.movementInputVector)
      ensures Between(smoothMovementSpeed, old(smoothMovementSpeed), movementSpeed)
      ensures finalMovementVector == Moved(old(finalMovementVector), smoothMovementDirection, finalSmoothMovementSpeed, p.isGrounded)
    {
      input.MovementInputCheck();
      GroundCheck(p);
      WallCheck(p);
      SmoothMovementInput(b.inputMagnitude, dt);
      MovementDirection(b.forward, b.right);
      MovementSpeed(b.forward);
      SmoothMovementDirection(dt);
      SmoothMovementSpeed(b.forward, dt);
      CalculateMovement(p.isGrounded);
    }

    /** Steps 10 and 11; the head bob sees isCrouching after the crouch check. */
    method CrouchAndBob(p: Probes, forward: Vec3, dt: real)
      requires Valid() && dt >= 0.0
      modifies input`isCrouching, input`enableJumping, input`enableCrouching, this`crouchAnimation, this`currentHeadBobHeight,
        this`controllerHeight, this`controllerCenter, camera`localPosition, this`tasks,
        this`headBobHasBeenReset, this`xHeadBobFrequency, this`yHeadBobFrequency, this`finalHeadBobOffset
      ensures StanceOf() == BobStep(CrouchStep(old(StanceOf()), old(CrouchStarts(p.ceilingHit)), dt),
        input.hasMovementInput && currentlyOnGround && !isHittingWall,
        Multipliers(forward, input.isRunning, input.isCrouching, input.movementInputVector, smoothMovementDirection), dt)
      ensures Valid() && old(tasks) <= tasks
    {
      CrouchCheck(p.ceilingHit, dt);
      HeadBobCheck(forward, dt);
    }

    /** Steps 12 to 14. */
    method LandGravityJump(p: Probes, dt: real)
      requires Valid() && dt >= 0.0
      modifies camera`localPosition, this`tasks, this`inAirTimer, this`finalMovementVector, this`jumpCounter,
        input`enableJumping, input`enableCrouching
      ensures StanceOf() ==
        JumpStep(GravityStep(LandStep(old(StanceOf()), !previouslyOnGround && currentlyOnGround, dt), p.isGrounded, dt),
          p.isGrounded, input.jumpClicked)
      ensures finalMovementVector == FallAndJump(old(finalMovementVector), p.isGrounded, Jump(old(jumpCounter), p.isGrounded).jumped, dt)
      ensures Valid() && old(tasks) <= tasks
    {
      ghost var landed := !previouslyOnGround && currentlyOnGround;
      LandCheck(dt);
      assert landed == (!previouslyOnGround && currentlyOnGround);
      Gravity(p.isGrounded, dt);
      JumpCheck(p.isGrounded);
      assert landed == (!previouslyOnGround && currentlyOnGround);
    }

    /** The stance and with it the invariant depend only on the fields named here. */
    twostate lemma StanceKept()
      requires unchanged(input`isCrouching, input`enableJumping, input`enableCrouching, camera`localPosition)
      requires unchanged(this`crouchAnimation, this`currentHeadBobHeight, this`controllerHeight, this`controllerCenter, this`tasks,
        this`headBobHasBeenReset, this`xHeadBobFrequency, this`yHeadBobFrequency, this`finalHeadBobOffset, this`inAirTimer, this`jumpCounter)
      ensures StanceOf() == old(StanceOf()) && (old(Valid()) ==> Valid())
    {
    }

    /** Steps 10 to 14, which keep the invariant; what they do to the stance is stated
        on CrouchAndBob and LandGravityJump and, combined, by ActionsStep. */
    method Actions(p: Probes, forward: Vec3, dt: real)
      requires Valid() && dt >= 0.0
      modifies input`isCrouching, input`enableJumping, input`enableCrouching, this`crouchAnimation, this`currentHeadBobHeight,
        this`controllerHeight, this`controllerCenter, camera`localPosition, this`tasks,
        this`headBobHasBeenReset, this`xHeadBobFrequency, this`yHeadBobFrequency, this`finalHeadBobOffset,
        this`inAirTimer, this`finalMovementVector, this`jumpCounter
      ensures Valid() && old(tasks) <= tasks
      ensures finalMovementVector == FallAndJump(old(finalMovementVector), p.isGrounded, Jump(old(jumpCounter), p.isGrounded).jumped, dt)
    {
      CrouchAndBob(p, forward, dt);
      LandGravityJump(p, dt);
    }

    /** Update: nothing happens unless player movement is enabled and the components are
        present; otherwise the steps run and the motion handed to CharacterController.Move
        is returned. */
    method Tick(p: Probes, b: Body, dt: real) returns (motion: Option<Vec3>)
      requires Valid() && dt >= 0.0
      requires 0.0 <= b.inputMagnitude && b.inputMagnitude * b.inputMagnitude == SqrMagnitude2(input.movementInputVector)
      modifies this`currentlyOnGround, this`previouslyOnGround, this`groundNormal, this`isHittingWall,
        this`normalizedMovementInputVector, this`smoothMovementInputVector, this`movementDirection, this`movementSpeed,
        this`smoothMovementDirection, this`smoothMovementSpeed, this`finalSmoothMovementSpeed, this`finalMovementVector,
        this`crouchAnimation, this`currentHeadBobHeight, this`controllerHeight, this`controllerCenter, this`tasks,
        this`headBobHasBeenReset, this`xHeadBobFrequency, this`yHeadBobFrequency, this`finalHeadBobOffset,
        this`inAirTimer, this`jumpCounter,
        input`hasMovementInput, input`isCrouching, input`enableJumping, input`enableCrouching, camera`localPosition
      ensures Valid() && old(tasks) <= tasks
      ensures !(enablePlayerMovement && b.componentsPresent) ==> motion == None && unchanged(this) && unchanged(input) && unchanged(camera)
      ensures enablePlayerMovement && b.componentsPresent ==> motion == Some(Scale3(finalMovementVector, dt))
      ensures enablePlayerMovement && b.componentsPresent ==>
        finalMovementVector == FallAndJump(Moved(old(finalMovementVector), smoothMovementDirection, finalSmoothMovementSpeed, p.isGrounded),
          p.isGrounded, Jump(old(jumpCounter), p.isGrounded).jumped, dt)
      ensures enablePlayerMovement && b.componentsPresent ==> previouslyOnGround == currentlyOnGround
    {
      motion := None;
      if enablePlayerMovement {
        if b.componentsPresent {
          var m := Update(p, b, dt);
          motion := Some(m);
        }
      }
    }

    /** The body of Update once it runs: hasMovementInput is derived, steps 1 to 15 run in
        source order (Gravity before JumpCheck) and the ground state is remembered. */
    method Update(p: Probes, b: Body, dt: real) returns (motion: Vec3)
      requires Valid() && dt >= 0.0
      requires 0.0 <= b.inputMagnitude && b.inputMagnitude * b.inputMagnitude == SqrMagnitude2(input.movementInputVector)
      modifies this`currentlyOnGround, this`previouslyOnGround, this`groundNormal, this`isHittingWall,
        this`normalizedMovementInputVector, this`smoothMovementInputVector, this`movementDirection, this`movementSpeed,
        this`smoothMovementDirection, this`smoothMovementSpeed, this`finalSmoothMovementSpeed, this`finalMovementVector,
        this`crouchAnimation, this`currentHeadBobHeight, this`controllerHeight, this`controllerCenter, this`tasks,
        this`headBobHasBeenReset, this`xHeadBobFrequency, this`yHeadBobFrequency, this`finalHeadBobOffset,
        this`inAirTimer, this`jumpCounter,
        input`hasMovementInput, input`isCrouching, input`enableJumping, input`enableCrouching, camera`localPosition
      ensures Valid() && old(tasks) <= tasks
      ensures motion == Scale3(finalMovementVector, dt)
      ensures finalMovementVector == FallAndJump(Moved(old(finalMovementVector), smoothMovementDirection, finalSmoothMovementSpeed, p.isGrounded),
        p.isGrounded, Jump(old(jumpCounter), p.isGrounded).jumped, dt)
      ensures previouslyOnGround == currentlyOnGround
    {
      label start:
      Locomotion(p, b, dt);
      StanceKept@start();
      Actions(p, b.forward, dt);
      motion := Scale3(finalMovementVector, dt);
      label acted:
      previouslyOnGround := currentlyOnGround;
      StanceKept@acted();
    }

    // ----- The coroutine scheduler -----

    /** The flags and the jump counter once the tasks in done have each been resumed once,
        starting from the given values: a land end resets the counter, any end re-enables
        crouching, a land end or a crouch end while standing re-enables jumping, and a
        crouch end stops the crouch animation. */
    ghost predicate FlagsAfter(done: seq<Task<Routine>>, jumpCounter0: int, enableCrouching0: bool, enableJumping0: bool, crouchAnimation0: bool)
      reads this`jumpCounter, input`enableCrouching, input`enableJumping, input`isCrouching, this`crouchAnimation
    {
      && jumpCounter == (if LandEnds(done) then 0 else jumpCounter0)
      && input.enableCrouching == (CrouchEnds(done) || LandEnds(done) || enableCrouching0)
      && input.enableJumping == (LandEnds(done) || (CrouchEnds(done) && !input.isCrouching) || enableJumping0)
      && crouchAnimation == (!CrouchEnds(done) && crouchAnimation0)
    }

    /** The camera position and the controller's height and centre once the surviving
        tasks kept have each run a pass: the last one's camera position, and the last crouch
        task's height and centre. */
    ghost predicate PoseAfter(kept: seq<Task<Routine>>, position0: Vec3, height0: real, center0: Vec3)
      reads camera`localPosition, this`controllerHeight, this`controllerCenter
    {
      && (kept == [] ==> camera.localPosition == position0)
      && (kept != [] ==> camera.localPosition == RoutinePosition(settings, kept[|kept| - 1]))
      && (LastCrouch(kept).None? ==> controllerHeight == height0 && controllerCenter == center0)
      && (LastCrouch(kept).Some? ==>
           controllerHeight == TaskHeight(settings, LastCrouch(kept).value) && controllerCenter == TaskCenter(settings, LastCrouch(kept).value))
    }

    /** One frame of the coroutine scheduler for the Crouch and Land tasks that were live
        before this frame's Update (the first n), oldest first; tasks started during the
        Update have already run their first pass and wait for the next frame.  Each task
        either runs one more pass, writing the camera position (and, for Crouch, the
        controller's height and centre), or runs the code after its loop. */
    method ResumeTasks(dt: real, n: nat)
      requires Configured() && HeightOk() && TasksValid() && CounterOk() && n <= |tasks|
      modifies this`tasks, this`controllerHeight, this`controllerCenter, camera`localPosition, this`crouchAnimation,
        this`jumpCounter, input`enableJumping, input`enableCrouching
      ensures HeightOk() && TasksValid() && CounterOk()
      ensures tasks == Survivors(old(tasks)[..n], dt) + old(tasks)[n..]
      ensures FlagsAfter(old(tasks)[..n], old(jumpCounter), old(input.enableCrouching), old(input.enableJumping), old(crouchAnimation))
      ensures PoseAfter(Survivors(old(tasks)[..n], dt), old(camera.localPosition), old(controllerHeight), old(controllerCenter))
    {
      var ts := tasks;
      var kept: seq<Task<Routine>> := [];
      var i := 0;
      while i < n
        invariant 0 <= i <= n
        invariant kept == Survivors(ts[..i], dt)
        invariant TasksOk(heights, kept)
        invariant HeightOk() && CounterOk()
        invariant FlagsAfter(ts[..i], old(jumpCounter), old(input.enableCrouching), old(input.enableJumping), old(crouchAnimation))
        invariant PoseAfter(kept, old(camera.localPosition), old(controllerHeight), old(controllerCenter))
        decreases n - i
      {
        kept := ResumeStep(ts[..i], ts[i], kept, dt, old(jumpCounter), old(input.enableCrouching), old(input.enableJumping),
          old(crouchAnimation), old(camera.localPosition), old(controllerHeight), old(controllerCenter));
        assert ts[..i + 1] == ts[..i] + [ts[i]];
        i := i + 1;
      }
      assert ts[..n] + ts[n..] == ts;
      TasksOkSplice(heights, kept, ts, n);
      tasks := kept + ts[n..];
    }

    /** One turn of ResumeTasks's loop: after the tasks done, the task t is resumed and,
        if it survives, kept. */
    method ResumeStep(done: seq<Task<Routine>>, t: Task<Routine>, kept: seq<Task<Routine>>, dt: real,
                      ghost jumpCounter0: int, ghost enableCrouching0: bool, ghost enableJumping0: bool, ghost crouchAnimation0: bool,
                      ghost position0: Vec3, ghost height0: real, ghost center0: Vec3)
      returns (kept': seq<Task<Routine>>)
      requires Configured() && HeightOk() && CounterOk()
      requires TaskOk(heights, t) && TasksOk(heights, kept) && kept == Survivors(done, dt)
      requires FlagsAfter(done, jumpCounter0, enableCrouching0, enableJumping0, crouchAnimation0)
      requires PoseAfter(kept, position0, height0, center0)
      modifies this`controllerHeight, this`controllerCenter, camera`localPosition, this`crouchAnimation, this`jumpCounter,
        input`enableJumping, input`enableCrouching
      ensures HeightOk() && CounterOk()
      ensures TasksOk(heights, kept') && kept' == Survivors(done + [t], dt)
      ensures FlagsAfter(done + [t], jumpCounter0, enableCrouching0, enableJumping0, crouchAnimation0)
      ensures PoseAfter(kept', position0, height0, center0)
    {
      AppendStep(done, t, dt);
      var r := ResumeOne(t, dt);
      if r.Some? {
        LastCrouchAppend(kept, r.value);
        kept' := kept + [r.value];
      } else {
        kept' := kept;
      }
    }

    /** One resumption of a task: Resume decides whether its loop runs one more pass or
        ends. */
    method ResumeOne(t: Task<Routine>, dt: real) returns (r: Option<Task<Routine>>)
      requires Configured() && TaskOk(heights, t) && HeightOk() && CounterOk()
      modifies this`controllerHeight, this`controllerCenter, camera`localPosition, this`crouchAnimation, this`jumpCounter,
        input`enableJumping, input`enableCrouching
      ensures r == Resume(t, dt) && HeightOk() && CounterOk()
      ensures r.Some? ==> TaskOk(heights, r.value) && camera.localPosition == RoutinePosition(settings, r.value)
      ensures r.Some? ==>
        && crouchAnimation == old(crouchAnimation) && jumpCounter == old(jumpCounter)
        && input.enableJumping == old(input.enableJumping) && input.enableCrouching == old(input.enableCrouching)
      ensures r.Some? && t.capture.CrouchRoutine? ==>
        controllerHeight == TaskHeight(settings, r.value) && controllerCenter == TaskCenter(settings, r.value)
      ensures r.None? || t.capture.LandRoutine? ==> controllerHeight == old(controllerHeight) && controllerCenter == old(controllerCenter)
      ensures r.None? ==> camera.localPosition == old(camera.localPosition)
      ensures r.None? && t.capture.CrouchRoutine? ==>
        && !crouchAnimation && input.enableCrouching && jumpCounter == old(jumpCounter)
        && input.enableJumping == (!input.isCrouching || old(input.enableJumping))
      ensures r.None? && t.capture.LandRoutine? ==>
        jumpCounter == 0 && input.enableJumping && input.enableCrouching && crouchAnimation == old(crouchAnimation)
    {
      if t.progress < 1.0 {
        var progress := t.progress + dt * t.speed;
        var next := Task(progress, t.speed, t.capture);
        assert Resume(t, dt).Some? && Resume(t, dt).value.capture == t.capture;
        assert Resume(t, dt).value == next;
        match t.capture {
          case CrouchRoutine(c) =>
            CrouchPass(c, progress);
          case LandRoutine(c) =>
            camera.localPosition := LandPosition(c, settings.jump.landTransitionCurve, progress);
        }
        r := Some(next);
      } else {
        match t.capture {
          case CrouchRoutine(_) =>
            CrouchEnd();
          case LandRoutine(_) =>
            LandEnd();
        }
        r := None;
      }
    }

    /** The code after the Crouch loop. */
    method CrouchEnd()
      modifies input`enableJumping, input`enableCrouching, this`crouchAnimation
      ensures input.enableJumping == (!input.isCrouching || old(input.enableJumping))
      ensures input.enableCrouching && !crouchAnimation
    {
      if !input.isCrouching {
        input.enableJumping := true;
      }
      input.enableCrouching := true;
      crouchAnimation := false;
    }

    /** The code after the Land loop. */
    method LandEnd()
      requires CounterOk()
      modifies this`jumpCounter, input`enableJumping, input`enableCrouching
      ensures jumpCounter == 0 && input.enableJumping && input.enableCrouching && CounterOk()
    {
      jumpCounter := 0;
      input.enableJumping := true;
      input.enableCrouching := true;
    }
  }
}
