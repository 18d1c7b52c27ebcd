/** The decisions inside MovementController (Assets/Scripts/Player/MovementController.cs)
    that depend only on values: the settings, the target-speed selection, the run test,
    the run remap, the jump rules, the landing impact, the head-bob multipliers and the
    heights the crouch transition moves between.  The class in module Movement applies
    them to its fields step by step. */
module MovementRules {
  import opened Unity
  import opened Transition

  /** The "Player Settings" switches. */
  datatype Switches = Switches(run: bool, crouch: bool, jump: bool, gravity: bool)

  datatype SpeedSettings = SpeedSettings(
    crouchSpeed: real, walkSpeed: real, runSpeed: real, jumpSpeed: real,
    backwardsSpeedPercent: real, sideSpeedPercent: real,
    runTransitionCurve: real -> real, runAbilityThreshold: real)

  datatype CrouchSettings = CrouchSettings(
    crouchTransitionCurve: real -> real, crouchPercent: real, crouchTransitionDuration: real)

  datatype JumpSettings = JumpSettings(
    numberOfJumps: int, lowImpactForce: real, highImpactForce: real, highImpactTime: real,
    landDuration: real, landTransitionCurve: real -> real)

  /** physicsGravity is the engine's Physics.gravity. */
  datatype GravitySettings = GravitySettings(groundedGravityForce: real, gravityMultiplier: real, physicsGravity: Vec3)

  datatype SmoothSettings = SmoothSettings(
    movementInputSpeed: real, velocitySpeed: real, directionSpeed: real, headBobSpeed: real)

  datatype HeadBobSettings = HeadBobSettings(
    xCurve: real -> real, yCurve: real -> real,
    xAmplitude: real, yAmplitude: real, xFrequency: real, yFrequency: real)

  datatype BobMultiplierSettings = BobMultiplierSettings(
    runAmplitudeMultiplier: real, runFrequencyMultiplier: real,
    crouchAmplitudeMultiplier: real, crouchFrequencyMultiplier: real)

  datatype MovementSettings = MovementSettings(
    switches: Switches, speed: SpeedSettings, crouch: CrouchSettings, jump: JumpSettings,
    gravity: GravitySettings, smooth: SmoothSettings, bob: HeadBobSettings,
    bobMultipliers: BobMultiplierSettings)

  /** The inspector ranges the rules below rely on, and positive transition durations
      (the coroutines divide by them). */
  predicate ValidSettings(s: MovementSettings)
  {
    && 0.0 <= s.speed.backwardsSpeedPercent <= 1.0
    && 0.0 <= s.speed.sideSpeedPercent <= 1.0
    && 0.2 <= s.crouch.crouchPercent <= 0.9
    && s.crouch.crouchTransitionDuration > 0.0
    && s.jump.landDuration > 0.0
  }

  /** AnimationCurve.EaseInOut(0, 0, 1, 1): the cubic from (0, 0) to (1, 1) with flat
      tangents at both keys, held at the key values outside [0, 1]. */
  function EaseInOut(t: real): real
  {
    if t <= 0.0 then 0.0 else if t >= 1.0 then 1.0 else 3.0 * t * t - 2.0 * t * t * t
  }

  /** The field initialisers of the settings (Physics.gravity at its default); the
      head-bob curves and numbers have none, so they are empty curves, which evaluate to
      0, and zeros. */
  const InspectorDefaults: MovementSettings :=
    MovementSettings(
      Switches(false, false, false, true),
      SpeedSettings(1.0, 3.0, 6.0, 6.0, 0.5, 0.7, EaseInOut, 0.7),
      CrouchSettings(EaseInOut, 0.6, 0.5),
      JumpSettings(1, 0.1, 0.6, 0.5, 1.0, EaseInOut),
      GravitySettings(1.0, 2.5, Vec3(0.0, -9.81, 0.0)),
      SmoothSettings(10.0, 3.0, 10.0, 5.0),
      HeadBobSettings(_ => 0.0, _ => 0.0, 0.0, 0.0, 0.0, 0.0),
      BobMultiplierSettings(0.0, 0.0, 0.0, 0.0))

  /** Settings within the inspector ranges; the defaults are. */
  type Settings = s: MovementSettings | ValidSettings(s) witness InspectorDefaults

  // ----- Steps 5 and 6: direction and target speed -----

  /** FlattenVectorOnSlopes: on the ground the direction is projected onto the ground
      plane, in the air it is kept. */
  function FlattenVectorOnSlopes(desiredDirection: Vec3, currentlyOnGround: bool, groundNormal: Vec3): (r: Vec3)
    ensures !currentlyOnGround ==> r == desiredDirection
    ensures currentlyOnGround && SqrMagnitude3(groundNormal) >= FloatEpsilon ==> Dot3(r, groundNormal) == 0.0
  {
    if currentlyOnGround then ProjectOnPlane(desiredDirection, groundNormal) else desiredDirection
  }

  /** PlayerCanRun: the smoothed direction, normalised (the zero vector when it is too
      short), points along forward at least as much as runAbilityThreshold, and the player
      is standing. */
  predicate PlayerCanRun(forward: Vec3, smoothMovementDirection: Vec3, runAbilityThreshold: real, isCrouching: bool)
  {
    NormalizedDotAtLeast(forward, smoothMovementDirection, runAbilityThreshold) && !isCrouching
  }

  /** PlayerCanRun against the textbook definition, given the true magnitude m of the
      smoothed direction: a direction too short to normalise has dot 0, so the player can
      run from it exactly when the threshold is at most 0. */
  lemma PlayerCanRunMeansDot(forward: Vec3, d: Vec3, threshold: real, isCrouching: bool, m: real)
    requires 0.0 <= m && m * m == SqrMagnitude3(d)
    ensures isCrouching ==> !PlayerCanRun(forward, d, threshold, isCrouching)
    ensures m <= VectorEpsilon ==> (PlayerCanRun(forward, d, threshold, isCrouching) <==> !isCrouching && threshold <= 0.0)
    ensures m > VectorEpsilon ==>
      (PlayerCanRun(forward, d, threshold, isCrouching) <==> !isCrouching && Dot3(forward, d) / m >= threshold)
  {
    NormalizedDotAtLeastMeansDot(forward, d, threshold, m);
  }

  /** The speed chosen before the direction factors: crouch overrides run, run needs
      isRunning and PlayerCanRun (passed as canRun), walking is the default. */
  function BaseSpeed(s: SpeedSettings, canRun: bool, isCrouching: bool): real
  {
    if isCrouching then s.crouchSpeed else if canRun then s.runSpeed else s.walkSpeed
  }

  /** MovementSpeed as overriding steps: base speed, zero without movement input, then
      the backwards factor when the vertical input is -1 or the side factor when moving
      purely sideways (the two conditions exclude each other). */
  function TargetSpeed(s: SpeedSettings, canRun: bool, isCrouching: bool, hasMovementInput: bool, input: Vec2): (r: real)
    ensures !hasMovementInput ==> r == 0.0
    ensures hasMovementInput && input.y == -1.0 ==> r == BaseSpeed(s, canRun, isCrouching) * s.backwardsSpeedPercent
    ensures hasMovementInput && input.x != 0.0 && input.y == 0.0 ==> r == BaseSpeed(s, canRun, isCrouching) * s.sideSpeedPercent
    ensures hasMovementInput && input.y != -1.0 && !(input.x != 0.0 && input.y == 0.0) ==> r == BaseSpeed(s, canRun, isCrouching)
  {
    var moving := if hasMovementInput then BaseSpeed(s, canRun, isCrouching) else 0.0;
    if input.y == -1.0 then moving * s.backwardsSpeedPercent
    else if input.x != 0.0 && input.y == 0.0 then moving * s.sideSpeedPercent
    else moving
  }

  /** With both percentages in [0, 1] the target speed lies between 0 and the base speed,
      so it never exceeds the largest of the three configured speeds (or 0). */
  lemma TargetSpeedBounds(s: SpeedSettings, canRun: bool, isCrouching: bool, hasMovementInput: bool, input: Vec2)
    requires 0.0 <= s.backwardsSpeedPercent <= 1.0 && 0.0 <= s.sideSpeedPercent <= 1.0
    ensures Between(TargetSpeed(s, canRun, isCrouching, hasMovementInput, input), 0.0, BaseSpeed(s, canRun, isCrouching))
    ensures TargetSpeed(s, canRun, isCrouching, hasMovementInput, input) <= Max(0.0, Max(s.runSpeed, Max(s.walkSpeed, s.crouchSpeed)))
  {
    var b := BaseSpeed(s, canRun, isCrouching);
    var moving := if hasMovementInput then b else 0.0;
    if input.y == -1.0 {
      ScaledStaysBetween(moving, s.backwardsSpeedPercent, b);
    } else if input.x != 0.0 && input.y == 0.0 {
      ScaledStaysBetween(moving, s.sideSpeedPercent, b);
    }
  }

  lemma ScaledStaysBetween(moving: real, p: real, b: real)
    requires 0.0 <= p <= 1.0 && (moving == 0.0 || moving == b)
    ensures Between(moving * p, 0.0, b)
  {
    if moving == b {
      ProductBetween(b, p);
    } else {
      MulMono(0.0, 0.0, p);
    }
  }

  // ----- Step 8: smoothing and the run remap -----

  /** The run remap: where the smoothed speed sits between walk and run speed, passed
      through the run curve and stretched back onto [walkSpeed, runSpeed]. */
  function RunRemap(s: SpeedSettings, smoothMovementSpeed: real): (r: real)
    ensures var c := Evaluate(s.runTransitionCurve, InverseLerp(s.walkSpeed, s.runSpeed, smoothMovementSpeed));
      0.0 <= c <= 1.0 ==> Between(r, s.walkSpeed, s.runSpeed)
  {
    var transitionPercentage := InverseLerp(s.walkSpeed, s.runSpeed, smoothMovementSpeed);
    var c := Evaluate(s.runTransitionCurve, transitionPercentage);
    RemapStaysBetween(c, s.walkSpeed, s.runSpeed);
    c * (s.runSpeed - s.walkSpeed) + s.walkSpeed
  }

  lemma RemapStaysBetween(c: real, walk: real, run: real)
    ensures 0.0 <= c <= 1.0 ==> Between(c * (run - walk) + walk, walk, run)
  {
    if 0.0 <= c <= 1.0 {
      LerpStaysBetween(walk, run, c);
      assert c * (run - walk) + walk == walk + (run - walk) * c;
    }
  }

  /** With the linear curve the remap gives back the smoothed speed itself, whenever that
      speed lies between distinct walk and run speeds. */
  lemma RunRemapLinear(s: SpeedSettings, smoothMovementSpeed: real)
    requires forall t :: 0.0 <= t <= 1.0 ==> Evaluate(s.runTransitionCurve, t) == t
    requires s.walkSpeed != s.runSpeed && Between(smoothMovementSpeed, s.walkSpeed, s.runSpeed)
    ensures RunRemap(s, smoothMovementSpeed) == smoothMovementSpeed
  {
    var w, r := s.walkSpeed, s.runSpeed;
    var t := InverseLerp(w, r, smoothMovementSpeed);
    LerpInverseLerp(w, r, smoothMovementSpeed);
    assert Evaluate(s.runTransitionCurve, t) == t;
    assert Lerp(w, r, t) == w + (r - w) * Clamp01(t);
    assert t * (r - w) + w == w + (r - w) * t;
  }

  /** finalSmoothMovementSpeed: the remap while running and able to run, the smoothed
      speed otherwise. */
  function FinalSpeed(s: SpeedSettings, runningAndCanRun: bool, smoothMovementSpeed: real): (r: real)
    ensures !runningAndCanRun ==> r == smoothMovementSpeed
    ensures runningAndCanRun ==>
      var c := Evaluate(s.runTransitionCurve, InverseLerp(s.walkSpeed, s.runSpeed, smoothMovementSpeed));
      0.0 <= c <= 1.0 ==> Between(r, s.walkSpeed, s.runSpeed)
  {
    if runningAndCanRun then RunRemap(s, smoothMovementSpeed) else smoothMovementSpeed
  }

  // ----- Step 13: jumping -----

  /** What JumpCheck decides: whether a jump happens, the new jump counter, and whether
      it switches jumping off (single-jump mode does; multi-jump mode relies on the
      counter). */
  datatype JumpOutcome = JumpOutcome(jumped: bool, jumpCounter: int, disablesJumping: bool)

  function JumpDecision(jump: bool, numberOfJumps: int, jumpCounter: int, isGrounded: bool,
                        jumpClicked: bool, isCrouching: bool): (r: JumpOutcome)
    ensures r.jumped ==> jump && jumpClicked && !isCrouching
    ensures numberOfJumps == 1 ==>
      (r.jumped <==> jump && isGrounded && jumpClicked && !isCrouching) && r.jumpCounter == jumpCounter
    ensures numberOfJumps != 1 ==>
      (r.jumped <==> jump && jumpCounter < numberOfJumps && jumpClicked && !isCrouching)
    ensures numberOfJumps != 1 ==> r.jumpCounter == jumpCounter + (if r.jumped then 1 else 0)
    ensures r.disablesJumping <==> r.jumped && numberOfJumps == 1
  {
    if !jump then JumpOutcome(false, jumpCounter, false)
    else if numberOfJumps == 1 then
      var j := isGrounded && jumpClicked && !isCrouching;
      JumpOutcome(j, jumpCounter, j)
    else if numberOfJumps > jumpCounter && jumpClicked && !isCrouching then
      JumpOutcome(true, jumpCounter + 1, false)
    else JumpOutcome(false, jumpCounter, false)
  }

  /** The counter invariant: starting at 0 and moved only by JumpCheck (and reset to 0 by
      a landing), the jump counter stays within [0, max(numberOfJumps, 0)]. */
  predicate JumpCounterOk(jumpCounter: int, numberOfJumps: int)
  {
    0 <= jumpCounter <= (if numberOfJumps > 0 then numberOfJumps else 0)
  }

  lemma JumpCounterBounded(jump: bool, numberOfJumps: int, jumpCounter: int, isGrounded: bool,
                           jumpClicked: bool, isCrouching: bool)
    requires JumpCounterOk(jumpCounter, numberOfJumps)
    ensures JumpCounterOk(JumpDecision(jump, numberOfJumps, jumpCounter, isGrounded, jumpClicked, isCrouching).jumpCounter, numberOfJumps)
    ensures numberOfJumps >= 0 ==>
      JumpDecision(jump, numberOfJumps, jumpCounter, isGrounded, jumpClicked, isCrouching).jumpCounter <= numberOfJumps
  {
  }

  /** Multi-jump mode allows exactly numberOfJumps jumps before a landing: from a counter
      of k, the jumps left are numberOfJumps - k, and a jump uses one of them. */
  lemma JumpsLeft(numberOfJumps: int, jumpCounter: int, isGrounded: bool)
    requires numberOfJumps != 1 && JumpCounterOk(jumpCounter, numberOfJumps)
    ensures JumpDecision(true, numberOfJumps, jumpCounter, isGrounded, true, false).jumped <==> jumpCounter < numberOfJumps
    ensures jumpCounter == numberOfJumps ==> !JumpDecision(true, numberOfJumps, jumpCounter, isGrounded, true, false).jumped
  {
  }

  // ----- Step 12: landing -----

  /** The impact of a landing: the high force for a fall of at least highImpactTime
      (equality counts as high), the low force otherwise. */
  function ImpactForce(j: JumpSettings, inAirTimer: real): (r: real)
    ensures r == j.highImpactForce || r == j.lowImpactForce
    ensures inAirTimer >= j.highImpactTime ==> r == j.highImpactForce
    ensures inAirTimer < j.highImpactTime ==> r == j.lowImpactForce
  {
    if inAirTimer >= j.highImpactTime then j.highImpactForce else j.lowImpactForce
  }

  /** A longer fall never lands softer, as long as the low force is not above the high
      one (the inspector ranges allow either order). */
  lemma ImpactForceMonotone(j: JumpSettings, t1: real, t2: real)
    requires t1 <= t2 && j.lowImpactForce <= j.highImpactForce
    ensures ImpactForce(j, t1) <= ImpactForce(j, t2)
  {
  }

  /** What Land captures when it starts: the camera's local position of the moment and
      the impact force. */
  datatype LandCapture = LandCapture(position: Vec3, impactForce: real)

  /** The camera position one pass of Land writes: the captured position with its height
      raised by curve(progress) * impactForce. */
  function LandPosition(c: LandCapture, curve: real -> real, progress: real): (r: Vec3)
    ensures r.x == c.position.x && r.z == c.position.z
    ensures 0.0 <= Evaluate(curve, progress) <= 1.0 && 0.0 <= c.impactForce ==>
      c.position.y <= r.y <= c.position.y + c.impactForce
  {
    var desiredHeight := Evaluate(curve, progress) * c.impactForce;
    RaiseBounds(Evaluate(curve, progress), c.impactForce);
    Vec3(c.position.x, c.position.y + desiredHeight, c.position.z)
  }

  lemma RaiseBounds(k: real, force: real)
    ensures 0.0 <= k <= 1.0 && 0.0 <= force ==> 0.0 <= k * force <= force
  {
    if 0.0 <= k <= 1.0 && 0.0 <= force {
      ProductBounds(force, k);
      assert k * force == force * k;
    }
  }

  // ----- Step 10 and the Crouch coroutine -----

  /** The heights Start derives from the character controller and the camera. */
  datatype Heights = Heights(
    playerHeight: real, crouchingHeight: real, playerCenter: Vec3, crouchingCenter: Vec3,
    cameraHeight: real, crouchingCameraHeight: real)

  /** Heights whose crouching height is positive and below the standing one, as Start
      derives them (CrouchingBelowStanding). */
  type OrderedHeights = h: Heights | 0.0 < h.crouchingHeight < h.playerHeight
    witness Heights(2.0, 1.2, Vec3(0.0, 1.0, 0.0), Vec3(0.0, 0.6, 0.0), 1.6, 0.8)

  /** Start: the standing height and centre, the crouching height (a crouchPercent share
      of it) and centre, and the camera heights, which differ by the same amount as the
      body heights. */
  function StartHeights(crouchPercent: real, playerHeight: real, skinWidth: real, cameraHeight: real): (h: Heights)
    ensures h.playerHeight == playerHeight && h.cameraHeight == cameraHeight
    ensures h.cameraHeight - h.crouchingCameraHeight == h.playerHeight - h.crouchingHeight
  {
    var crouchingHeight := playerHeight * crouchPercent;
    var heightDifference := playerHeight - crouchingHeight;
    Heights(playerHeight, crouchingHeight,
            Vec3(0.0, playerHeight / 2.0 + skinWidth, 0.0),
            Vec3(0.0, crouchingHeight / 2.0 + skinWidth, 0.0),
            cameraHeight, cameraHeight - heightDifference)
  }

  /** With a crouch percent in its inspector range, crouching makes the player shorter but
      never flat. */
  lemma CrouchingBelowStanding(crouchPercent: real, playerHeight: real, skinWidth: real, cameraHeight: real)
    requires 0.0 < playerHeight && 0.2 <= crouchPercent <= 0.9
    ensures var h := StartHeights(crouchPercent, playerHeight, skinWidth, cameraHeight);
      0.0 < h.crouchingHeight < h.playerHeight
  {
    MulMono(0.2, crouchPercent, playerHeight);
    MulMono(crouchPercent, 0.9, playerHeight);
  }

  /** What Crouch captures when it starts: the controller's height and centre of the
      moment, the camera's local position of the moment, and where the three are going. */
  datatype CrouchCapture = CrouchCapture(
    currentHeight: real, currentCenter: Vec3, cameraPosition: Vec3,
    desiredHeight: real, desiredCenter: Vec3, desiredCameraHeight: real)

  /** The capture of a crouch that starts from the given controller and camera state;
      nowCrouching is isCrouching after the flip. */
  function CrouchStart(h: Heights, nowCrouching: bool, height: real, center: Vec3, cameraPosition: Vec3): (c: CrouchCapture)
    ensures c.currentHeight == height && c.currentCenter == center && c.cameraPosition == cameraPosition
    ensures nowCrouching ==>
      c.desiredHeight == h.crouchingHeight && c.desiredCenter == h.crouchingCenter && c.desiredCameraHeight == h.crouchingCameraHeight
    ensures !nowCrouching ==>
      c.desiredHeight == h.playerHeight && c.desiredCenter == h.playerCenter && c.desiredCameraHeight == h.cameraHeight
  {
    if nowCrouching then
      CrouchCapture(height, center, cameraPosition, h.crouchingHeight, h.crouchingCenter, h.crouchingCameraHeight)
    else
      CrouchCapture(height, center, cameraPosition, h.playerHeight, h.playerCenter, h.cameraHeight)
  }

  /** The camera position one pass of Crouch writes: the captured position with only its
      height moved from the captured one towards the target. */
  function CrouchCameraPosition(c: CrouchCapture, curve: real -> real, progress: real): Vec3
  {
    Vec3(c.cameraPosition.x, Lerp(c.cameraPosition.y, c.desiredCameraHeight, Evaluate(curve, progress)), c.cameraPosition.z)
  }

  /** Whatever the curve does, a crouch pass keeps the camera's captured x and z and
      leaves its height between the captured and the desired camera height. */
  lemma CrouchCameraBetween(c: CrouchCapture, curve: real -> real, progress: real)
    ensures var r := CrouchCameraPosition(c, curve, progress);
      r.x == c.cameraPosition.x && r.z == c.cameraPosition.z && Between(r.y, c.cameraPosition.y, c.desiredCameraHeight)
  {
    LerpBounds(c.cameraPosition.y, c.desiredCameraHeight, Evaluate(curve, progress));
  }

  /** A capture whose start height is within the crouching and standing heights and whose
      target is one of them. */
  predicate CaptureInRange(h: Heights, c: CrouchCapture)
  {
    && h.crouchingHeight <= c.currentHeight <= h.playerHeight
    && (c.desiredHeight == h.crouchingHeight || c.desiredHeight == h.playerHeight)
  }

  /** The controller height one pass of Crouch writes. */
  function CrouchHeight(c: CrouchCapture, curve: real -> real, progress: real): real
  {
    Lerp(c.currentHeight, c.desiredHeight, Evaluate(curve, progress))
  }

  /** Whatever the crouch curve does, the controller never gets shorter than the
      crouching height or taller than the standing height. */
  lemma CrouchHeightInRange(h: Heights, c: CrouchCapture, curve: real -> real, progress: real)
    requires h.crouchingHeight <= h.playerHeight && CaptureInRange(h, c)
    ensures Between(CrouchHeight(c, curve, progress), c.currentHeight, c.desiredHeight)
    ensures h.crouchingHeight <= CrouchHeight(c, curve, progress) <= h.playerHeight
  {
    LerpBounds(c.currentHeight, c.desiredHeight, Evaluate(curve, progress));
  }

  // ----- Step 11: head bob -----

  datatype BobMultipliers = BobMultipliers(amplitude: real, frequency: real, additional: real)

  /** HeadBob's three multipliers: crouching overrides running for both amplitude and
      frequency; the side multiplier overrides the backwards one; otherwise 1. */
  function BobMultipliersFor(m: BobMultiplierSettings, runningAndCanRun: bool, isCrouching: bool, input: Vec2,
                             backwardsMultiplier: real, sideMultiplier: real): (r: BobMultipliers)
    ensures isCrouching ==> r.amplitude == m.crouchAmplitudeMultiplier && r.frequency == m.crouchFrequencyMultiplier
    ensures !isCrouching && runningAndCanRun ==> r.amplitude == m.runAmplitudeMultiplier && r.frequency == m.runFrequencyMultiplier
    ensures !isCrouching && !runningAndCanRun ==> r.amplitude == 1.0 && r.frequency == 1.0
    ensures input.x != 0.0 && input.y == 0.0 ==> r.additional == sideMultiplier
    ensures input.y == -1.0 ==> r.additional == backwardsMultiplier
    ensures input.y != -1.0 && !(input.x != 0.0 && input.y == 0.0) ==> r.additional == 1.0
  {
    var amplitude := if isCrouching then m.crouchAmplitudeMultiplier else if runningAndCanRun then m.runAmplitudeMultiplier else 1.0;
    var frequency := if isCrouching then m.crouchFrequencyMultiplier else if runningAndCanRun then m.runFrequencyMultiplier else 1.0;
    var additional := if input.x != 0.0 && input.y == 0.0 then sideMultiplier else if input.y == -1.0 then backwardsMultiplier else 1.0;
    BobMultipliers(amplitude, frequency, additional)
  }

  /** The tasks the movement script runs as coroutines. */
  datatype Routine = CrouchRoutine(crouch: CrouchCapture) | LandRoutine(land: LandCapture)

  // ----- The stance steps 10 to 14 work on -----

  /** The head-bob fields: whether the bob has been reset, the two phases and the offset. */
  datatype Bob = Bob(reset: bool, x: real, y: real, offset: Vec3)

  /** The fields steps 10 to 14 read and write, except the movement vector: isCrouching
      and the two enables of the input handler, the crouch pose, the camera position, the
      live tasks, the head-bob state, the air timer and the jump counter. */
  datatype Stance = Stance(
    isCrouching: bool, enableJumping: bool, enableCrouching: bool, crouchAnimation: bool,
    headBobHeight: real, height: real, center: Vec3, cameraPosition: Vec3, tasks: seq<Task<Routine>>,
    bobReset: bool, xPhase: real, yPhase: real, bobOffset: Vec3, inAirTimer: real, jumpCounter: int)
  {
    function BobPart(): Bob
    {
      Bob(bobReset, xPhase, yPhase, bobOffset)
    }

    /** A reset bob has both phases and the offset at zero; the offset never has a depth
        component. */
    predicate BobOk()
    {
      bobOffset.z == 0.0 && (bobReset ==> xPhase == 0.0 && yPhase == 0.0 && bobOffset == Zero3)
    }
  }

  /** Every live task has a positive speed, and a crouch task starts within the crouching
      and standing heights and heads for one of them. */
  predicate TasksOk(h: Heights, ts: seq<Task<Routine>>)
  {
    forall i :: 0 <= i < |ts| ==> TaskOk(h, ts[i])
  }

  predicate TaskOk(h: Heights, t: Task<Routine>)
  {
    t.speed > 0.0 && (t.capture.CrouchRoutine? ==> CaptureInRange(h, t.capture.crouch))
  }

  /** Well-formed tasks followed by the well-formed tasks from n on are well formed. */
  lemma TasksOkSplice(h: Heights, kept: seq<Task<Routine>>, ts: seq<Task<Routine>>, n: nat)
    requires TasksOk(h, kept) && TasksOk(h, ts) && n <= |ts|
    ensures TasksOk(h, kept + ts[n..])
  {
    forall j | 0 <= j < |kept + ts[n..]| ensures TaskOk(h, (kept + ts[n..])[j]) {
      if j >= |kept| {
        assert (kept + ts[n..])[j] == ts[n + j - |kept|];
      }
    }
  }

  /** The stance invariant: the jump counter within its bounds, a non-negative air
      timer, the controller height between the crouching and standing heights, the
      head-bob height one of the two camera heights, a consistent bob and well-formed
      tasks. */
  predicate StanceOk(numberOfJumps: int, h: Heights, s: Stance)
  {
    && JumpCounterOk(s.jumpCounter, numberOfJumps) && s.inAirTimer >= 0.0
    && h.crouchingHeight <= s.height <= h.playerHeight
    && (s.headBobHeight == h.cameraHeight || s.headBobHeight == h.crouchingCameraHeight)
    && s.BobOk() && TasksOk(h, s.tasks)
  }
}
