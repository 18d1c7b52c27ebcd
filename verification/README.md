# First-person locomotion controller — a Dafny model

This project models the three player scripts of a Unity first-person controller.

- **InputHandler** samples the devices once per frame into public flags. It keeps three small state machines behind those flags: the run latch, the enable gates on the crouch, jump and run edges, and the rising-edge debounce of the two analog triggers.
- **MovementController** runs a fixed fifteen-step locomotion tick:
  - ground and wall probes, then input smoothing;
  - direction, speed selection and speed smoothing with the run remap;
  - the movement vector;
  - crouch, head bob and landing;
  - gravity, jumps, and the motion handed to the character controller.

  Its two coroutines, `Crouch` and `Land`, are resumable transitions.
- **CameraController** accumulates and clamps yaw and pitch and smooths them with a clamped lerp. It also toggles the zoom, driving the field of view through the `ZoomFOV` transition.

Floats are `real`s. Unity's helpers are written out as Unity defines them (module `Unity`):

- `Mathf.Lerp` clamps `t`.
- `Mathf.InverseLerp` returns 0 when its two ends are equal.
- `Vector2 ==` is the approximate test `sqrMagnitude(a - b) < 1e-10`.
- `.normalized` returns the zero vector at or below magnitude `1e-5`.

An `AnimationCurve` is an arbitrary `real -> real` function. Each physics query is a boolean input of the tick (`Movement.Probes`): `Physics.SphereCast`, `CharacterController.isGrounded` and the ceiling check. So are the player's forward and right vectors, since the body rotation is not modelled (`Movement.Body`).

Each script is a `class` whose methods update its fields in place. The pure decisions the tick makes live in `MovementRules` as functions. Some methods write the source's code out again and are proved equal to the rule; others call the rule directly:

- The target speed: `MovementSpeed` writes out the override chain and is proved equal to `TargetSpeed`.
- The run remap: `SmoothMovementSpeed` writes out the `InverseLerp` remap and is proved equal to `FinalSpeed`.
- The jump decision: `JumpCheck` writes out the nested tests and is proved to move the counter and the enables as `JumpDecision` says.
- The impact force: `StartLand` writes out the conditional and is proved to capture `ImpactForce`.
- The head-bob multipliers: `MultiplierChain` writes out the override chain and is proved equal to `BobMultipliersFor`.
- The run test: `RunningAndCanRun` calls `PlayerCanRun`.
- The crouch and land poses: `StartCrouch` calls `CrouchStart`, and `StartLand` calls `LandPosition`.
- The run latch and the trigger debounce: `RunInput` and the two debounce methods write out the source's tests and are proved equal to `RunLatch` and `TriggerStep`.

A coroutine is a `Transition.Task`: the progress, the speed `1 / duration` and the values it captured when it started. The engine's handling of coroutines is modelled as follows:

- `StartCoroutine` runs the first pass of the loop at once.
- Every later frame resumes each live task once, oldest first, after all `Update` calls. Tasks started during this frame's `Update` wait for the next frame.
- `StopCoroutine(Crouch())`, `StopCoroutine(Land())` and `StopCoroutine(ZoomFOV())` pass a fresh enumerator, so they cancel nothing. The model keeps every live task, and a second transition of the same kind runs beside the first.

`Player.Frame` puts one frame together:

1. `InputHandler.Update`, then `MovementController.Update`. Unity leaves the order of scripts unspecified; this one lets a frame's movement read that frame's input.
2. The movement tasks that were live before the `Update` calls.
3. The zoom tasks.
4. `CameraController.LateUpdate`.

Frame times are `dt >= 0`.

Behaviour of the code that the model keeps:

- The jump counter is reset when a `Land` transition completes (`MovementController.cs:707`), not when the landing is detected.
- A `Land` completion sets `enableCrouching` (`MovementController.cs:710`), even while a `Crouch` transition is still running. A second crouch can therefore start mid-transition, and both tasks then write the controller's height. `Movement.EndsMeans` and `ResumeTasks`' contract state when crouching is re-enabled.
- The backwards and side multipliers of the head bob scale its amplitude only (`MovementController.cs:534-535`). The frequency uses the run or crouch multiplier alone.
- `Update` calls `Gravity` before `JumpCheck` (`MovementController.cs:215-216`), so a jump in a grounded frame overrides the grounded push-down.
- Neither the `Crouch` completion (`MovementController.cs:679`) nor the `Land` completion (`MovementController.cs:710`) checks the `crouch` switch; both set `enableCrouching`. With crouching switched off, a crouch can therefore start after the first landing. `CrouchCheck` and `Input.Gated` do not check the switch either, and the model keeps all of this.

## Model

| member | source | states |
|---|---|---|
| Unity.Clamp | Assets/Scripts/Player/CameraController.cs:116 | Mathf.Clamp lies in [min, max] when min <= max and returns the value unchanged when it already lies there |
| Unity.LerpBounds | Assets/Scripts/Player/MovementController.cs:378 | Mathf.Lerp's result lies between its two ends (t is clamped), equals a for t <= 0 and b for t >= 1 |
| Unity.InverseLerp | Assets/Scripts/Player/MovementController.cs:382 | Mathf.InverseLerp always lies in [0, 1] |
| Unity.LerpInverseLerp | Assets/Scripts/Player/MovementController.cs:382 | for distinct ends and a value between them, Lerp undoes InverseLerp |
| Unity.Normalize2 | Assets/Scripts/Player/MovementController.cs:292 | Vector2.normalized is zero at magnitude <= 1e-5 and otherwise a unit vector that scales back to the input |
| Unity.ProjectOnPlane | Assets/Scripts/Player/MovementController.cs:311 | the projection is orthogonal to a non-degenerate normal and is the input unchanged for a degenerate one |
| Unity.NormalizedDotAtLeastMeansDot | Assets/Scripts/Player/MovementController.cs:351-358 | the square-root-free run test agrees with dot(forward, d / magnitude) >= threshold, and with 0 >= threshold when d normalises to zero |
| Transition.Speed | Assets/Scripts/Player/MovementController.cs:629 | 1 / duration is positive and covers the duration exactly |
| Transition.Start | Assets/Scripts/Player/CameraController.cs:212-217 | after StartCoroutine the first pass has run: the task is a fresh task (progress 0) resumed once, so progress is dt * speed and the captured values are kept |
| Transition.Resume | Assets/Scripts/Player/MovementController.cs:660-672 | a resumption ends the loop exactly when progress >= 1; otherwise progress grows by dt * speed, strictly when dt and speed are positive, and nothing else changes |
| Transition.Survivors | Assets/Scripts/Player/CameraController.cs:212-218 | one frame of resumptions never adds tasks |
| Transition.SurvivorsAreResumed | Assets/Scripts/Player/MovementController.cs:660-672 | every surviving task is some live task advanced one pass, every unfinished task survives advanced one pass, and all survive exactly when none had reached progress 1 |
| Transition.SurvivorsInOrder | Assets/Scripts/Player/CameraController.cs:212-218 | the survivors are the live tasks, in their order, each resumed once and dropped when it finishes (a filter-map over the list) |
| Transition.TransitionFinishes | Assets/Scripts/Player/MovementController.cs:696-705 | with positive dt and speed, a task whose progress reaches 1 after n more passes has ended after n + 1 resumptions |
| Input.RunLatch | Assets/Scripts/Player/InputHandler.cs:102-110 | a release turns running off (it is tested last), a click alone turns it on, neither keeps it |
| Input.Gated | Assets/Scripts/Player/InputHandler.cs:112-113 | a disabled action never reports its edge; an enabled one reports it unchanged |
| Input.TriggerStep | Assets/Scripts/Player/InputHandler.cs:127-140 | the trigger clicks exactly when armed and the axis is non-zero, and is re-armed exactly when the axis reads 0 |
| Input.Clicks | Assets/Scripts/Player/InputHandler.cs:127-140 | the debounce over consecutive frames yields one click flag per frame |
| Input.ClicksAreRisingEdges | Assets/Scripts/Player/InputHandler.cs:127-140 | frame i clicks exactly when the axis is non-zero at i and was zero at i - 1 (armed at the start for i = 0) |
| Input.OneClickPerPress | Assets/Scripts/Player/InputHandler.cs:127-140 | two clicks are never adjacent and the axis reads 0 somewhere between them |
| Input.HeldTriggerClicksOnce | Assets/Scripts/Player/InputHandler.cs:144-157 | a trigger held non-zero clicks at most in its first frame |
| Input.HasMovementInput | Assets/Scripts/Player/InputHandler.cs:189-199 | a zero vector never counts as movement input |
| Input.HasMovementInputExact | Assets/Scripts/Player/InputHandler.cs:191 | for readings that are 0 or at least 1e-5 away from it, there is movement input exactly when the vector is not (0, 0) |
| Input.InputHandler.constructor | Assets/Scripts/Player/InputHandler.cs:50-78 | the field defaults (run enabled, crouch, jump and input disabled, both triggers armed) followed by Awake's reset |
| Input.InputHandler.Update | Assets/Scripts/Player/InputHandler.cs:80-88 | with input disabled nothing changes; otherwise the movement and camera samples, the run latch, the gated edges, the trigger debounce, both mouse clicks and the destroy, interact and escape edges are as the samplers define them, and no gate, isZoomedIn, isCrouching or hasMovementInput is written |
| Input.InputHandler.Sample | Assets/Scripts/Player/InputHandler.cs:84-86 | the three samplers in order give every sampled flag its defined value, the destroy, interact and escape edges included |
| Input.InputHandler.KeyboardInputData | Assets/Scripts/Player/InputHandler.cs:85-86 | movement then additional sampling, which write disjoint flags: the movement flags, the debounces, the mouse clicks and the destroy, interact and escape edges as each sampler defines them |
| Input.InputHandler.MovementInputData | Assets/Scripts/Player/InputHandler.cs:94-114 | the movement vector is the raw axes, run, crouch and jump edges are gated by their enables, and isRunning follows the run latch |
| Input.InputHandler.RunInput | Assets/Scripts/Player/InputHandler.cs:99-110 | the gated run edges drive the run latch |
| Input.InputHandler.CameraInputData | Assets/Scripts/Player/InputHandler.cs:116-123 | the mouse vector and the zoom edges are the sampled values |
| Input.InputHandler.AdditionalInputData | Assets/Scripts/Player/InputHandler.cs:125-167 | both debounces step, each mouse click is its button or the opposite trigger's click, and the other buttons are their edges |
| Input.InputHandler.RightTriggerDebounce | Assets/Scripts/Player/InputHandler.cs:127-140 | the right trigger's state moves by TriggerStep |
| Input.InputHandler.LeftTriggerDebounce | Assets/Scripts/Player/InputHandler.cs:144-157 | the left trigger's state moves by TriggerStep |
| Input.InputHandler.ButtonEdges | Assets/Scripts/Player/InputHandler.cs:161-166 | destroy, interact and both escapes are this frame's edges |
| Input.InputHandler.ResetInputData | Assets/Scripts/Player/InputHandler.cs:169-187 | movement vector, run and crouch state, every click and the mouse vector are cleared; enables, zoom state, hasMovementInput and debounce are outside its frame |
| Input.InputHandler.ResetMovementData | Assets/Scripts/Player/InputHandler.cs:171-177 | the movement half of the reset |
| Input.InputHandler.ResetPointerData | Assets/Scripts/Player/InputHandler.cs:179-186 | the mouse and click half of the reset |
| Input.InputHandler.MovementInputCheck | Assets/Scripts/Player/InputHandler.cs:189-199 | hasMovementInput is the negated approximate zero test, hence false for the zero vector |
| Camera.PitchStep | Assets/Scripts/Player/CameraController.cs:114-116 | the accumulated pitch is clamped into [lookAngle.x, lookAngle.y] and left alone when already inside |
| Camera.ZoomFOVAt | Assets/Scripts/Player/CameraController.cs:214-216 | the field of view stays between the captured start and the target, reaching the target once the curve reaches 1 |
| Camera.ZoomTogglesBack | Assets/Scripts/Player/CameraController.cs:199-210 | from zoomed out the target is zoomFOV and the next is normalFOV; consecutive targets differ exactly when the two views differ |
| Camera.CameraController.constructor | Assets/Scripts/Player/CameraController.cs:80-91 | Start records the live field of view as the normal one; look state is zero, no transition runs |
| Camera.CameraController.LateUpdate | Assets/Scripts/Player/CameraController.cs:93-105 | with camera movement disabled nothing changes; otherwise yaw accumulates, pitch moves by PitchStep into the look angles, both smoothed angles lerp towards them, and a zoom starts (isZoomedIn flips, one task with its first pass) exactly when a zoom was requested, nothing else changing otherwise |
| Camera.CameraController.CameraRotation | Assets/Scripts/Player/CameraController.cs:111-123 | yaw accumulates unclamped, pitch by PitchStep, and each smoothed angle ends between its previous value and its target |
| Camera.CameraController.ZoomCheck | Assets/Scripts/Player/CameraController.cs:125-139 | a zoom transition starts exactly when zoom is enabled and the zoom button went down or up; otherwise nothing changes |
| Camera.CameraController.StartZoom | Assets/Scripts/Player/CameraController.cs:193-217 | isZoomedIn flips once, the target is normalFOV if it was zoomed in and zoomFOV otherwise, the start is the live field of view, and the first pass is applied |
| Camera.CameraController.ResumeZoomTasks | Assets/Scripts/Player/CameraController.cs:212-218 | the live zoom tasks become their survivors, and the field of view is the last survivor's pass (unchanged when none survives) |
| MovementRules.FlattenVectorOnSlopes | Assets/Scripts/Player/MovementController.cs:307-315 | in the air the direction is unchanged; on the ground it is orthogonal to a non-degenerate ground normal |
| MovementRules.PlayerCanRunMeansDot | Assets/Scripts/Player/MovementController.cs:349-368 | never while crouching; with a zero smoothed direction exactly when threshold <= 0; otherwise exactly when dot(forward, direction) / magnitude >= threshold |
| MovementRules.TargetSpeed | Assets/Scripts/Player/MovementController.cs:317-347 | zero without movement input; the run, walk or crouch speed times backwardsSpeedPercent when moving straight back, times sideSpeedPercent when moving purely sideways, and unscaled otherwise |
| MovementRules.TargetSpeedBounds | Assets/Scripts/Player/MovementController.cs:317-347 | with both percents in [0, 1] the target speed lies between 0 and the base speed, and never exceeds max(run, walk, crouch) |
| MovementRules.RunRemap | Assets/Scripts/Player/MovementController.cs:382-383 | the remapped speed lies in [walkSpeed, runSpeed] whenever the run curve's output lies in [0, 1] |
| MovementRules.RunRemapLinear | Assets/Scripts/Player/MovementController.cs:382-383 | with the identity curve the remap gives back any speed between walk and run |
| MovementRules.FinalSpeed | Assets/Scripts/Player/MovementController.cs:380-388 | the smoothed speed itself unless running and able to run, the run remap (between walk and run) otherwise |
| MovementRules.JumpDecision | Assets/Scripts/Player/MovementController.cs:563-592 | a jump needs jump enabled, a click and standing; single-jump also needs grounded and never counts; multi-jump needs counter < numberOfJumps and adds exactly 1; only single-jump disables jumping |
| MovementRules.JumpCounterBounded | Assets/Scripts/Player/MovementController.cs:580-590 | a jump decision keeps the counter within [0, numberOfJumps] |
| MovementRules.JumpsLeft | Assets/Scripts/Player/MovementController.cs:580-590 | in multi-jump mode a standing click jumps exactly while the counter is below numberOfJumps |
| MovementRules.ImpactForce | Assets/Scripts/Player/MovementController.cs:694 | highImpactForce exactly when inAirTimer >= highImpactTime (equality selects high), lowImpactForce otherwise |
| MovementRules.ImpactForceMonotone | Assets/Scripts/Player/MovementController.cs:694 | a longer fall never gives a smaller impact when low <= high |
| MovementRules.LandPosition | Assets/Scripts/Player/MovementController.cs:696-702 | x and z stay as captured and y lies within the impact above the captured height when the curve is in [0, 1] |
| MovementRules.StartHeights | Assets/Scripts/Player/MovementController.cs:166-177 | the camera's crouch drop equals the body's height drop |
| MovementRules.CrouchingBelowStanding | Assets/Scripts/Player/MovementController.cs:171 | with crouchPercent in its [0.2, 0.9] range the crouching height is positive and below the standing height |
| MovementRules.CrouchStart | Assets/Scripts/Player/MovementController.cs:631-658 | the capture is the current height, centre and camera position; the destination height, centre and camera height are the crouching ones when now crouching and the standing ones otherwise |
| MovementRules.CrouchCameraBetween | Assets/Scripts/Player/MovementController.cs:668-669 | the camera keeps its captured x and z, and y stays between the captured and the desired camera height |
| MovementRules.CrouchHeightInRange | Assets/Scripts/Player/MovementController.cs:660-666 | a crouch pass leaves the controller height between the captured and the desired height, and so keeps the controller height within [crouchingHeight, playerHeight] |
| MovementRules.BobMultipliersFor | Assets/Scripts/Player/MovementController.cs:483-523 | crouch overrides run for amplitude and frequency; side overrides backwards for the additional multiplier; otherwise each is 1 |
| Movement.RoutinePosition | Assets/Scripts/Player/MovementController.cs:668-702 | a crouch or land pass keeps the camera's captured x and z |
| Movement.LastCrouch | Assets/Scripts/Player/MovementController.cs:665-666 | the crouch task whose pass writes the controller last is a live crouch task |
| Movement.LastCrouchMeans | Assets/Scripts/Player/MovementController.cs:665-666 | there is none exactly when no crouch task is live, and otherwise it is a live crouch task with no crouch task after it |
| Movement.EndsMeans | Assets/Scripts/Player/MovementController.cs:674-710 | a crouch (land) end happens exactly when some crouch (land) task has reached progress 1, and some end happens exactly when some task finishes |
| Movement.MovementController.constructor | Assets/Scripts/Player/MovementController.cs:155-189 | Start copies the switches to the input enables, derives the heights, starts on the ground with counter and timer zero, and establishes the invariant |
| Movement.MovementController.GroundCheck | Assets/Scripts/Player/MovementController.cs:244-249 | currentlyOnGround is the ground probe |
| Movement.MovementController.WallCheck | Assets/Scripts/Player/MovementController.cs:251-288 | hitting a wall exactly when moving with a non-zero direction and the lower or middle probe hits, or the upper one while standing |
| Movement.MovementController.SmoothMovementInput | Assets/Scripts/Player/MovementController.cs:290-294 | the input is normalised and each smoothed component ends between its previous value and the normalised one |
| Movement.MovementController.MovementDirection | Assets/Scripts/Player/MovementController.cs:296-305 | forward and right combine by the smoothed input and are flattened, orthogonal to the ground normal on the ground |
| Movement.MovementController.MovementSpeed | Assets/Scripts/Player/MovementController.cs:317-347 | the override chain gives exactly TargetSpeed |
| Movement.MovementController.SmoothMovementDirection | Assets/Scripts/Player/MovementController.cs:370-374 | the direction moves towards the new one by a clamped lerp |
| Movement.MovementController.SmoothMovementSpeed | Assets/Scripts/Player/MovementController.cs:376-389 | the smoothed speed ends between its previous value and the target, and the final speed is FinalSpeed |
| Movement.MovementController.CalculateMovement | Assets/Scripts/Player/MovementController.cs:391-407 | horizontal motion is direction times speed; y gains the vertical part only with gravity on the ground |
| Movement.MovementController.CrouchCheck | Assets/Scripts/Player/MovementController.cs:409-428 | a crouch starts exactly on a click while grounded, unless already crouching under a ceiling; otherwise nothing changes |
| Movement.MovementController.StartCrouch | Assets/Scripts/Player/MovementController.cs:620-671 | isCrouching flips, jumping and crouching are disabled, the head-bob height follows, a task is appended and its first pass applied |
| Movement.MovementController.CrouchBegin | Assets/Scripts/Player/MovementController.cs:622-658 | the code before the Crouch loop: disables, flip, head-bob height |
| Movement.MovementController.CrouchPass | Assets/Scripts/Player/MovementController.cs:660-671 | one pass writes the height, centre and camera position of the capture, keeping the height within range |
| Movement.MovementController.CrouchStepMeans | Assets/Scripts/Player/MovementController.cs:620-671 | a crouch start flips isCrouching, disables jumping and crouching, starts the animation, sets the head-bob height of the new stance, moves height and camera towards the new stance's pose from the current one, appends exactly that task (progress dt / duration), leaves bob, timer and counter alone, and keeps the stance invariant |
| Movement.MovementController.CrouchKeeps | Assets/Scripts/Player/MovementController.cs:409-428 | step 10 keeps the stance invariant (counter in range, timer non-negative, height in range, head-bob height one of the two, well-formed tasks) |
| Movement.MovementController.HeadBobCheck | Assets/Scripts/Player/MovementController.cs:440-461 | the stance becomes BobStep's (see BobStepMeans) and the invariant is kept |
| Movement.MovementController.BobStepMeans | Assets/Scripts/Player/MovementController.cs:440-461 | bobbing during the crouch animation changes nothing; bobbing otherwise advances the bob once; not bobbing leaves it reset; the camera is left alone during the animation and otherwise eased towards the head-bob height plus the new offset (zero when not bobbing); nothing else changes |
| Movement.MovementController.BobKeeps | Assets/Scripts/Player/MovementController.cs:440-461 | step 11 keeps the stance invariant |
| Movement.MovementController.HeadBob | Assets/Scripts/Player/MovementController.cs:475-537 | the phases advance by dt * frequency * multiplier, the offset is curve * amplitude * multipliers (those of BobMultipliersFor), and the camera eases towards it |
| Movement.MovementController.MultiplierChain | Assets/Scripts/Player/MovementController.cs:479-523 | the source's override chain yields exactly BobMultipliersFor: crouch over run for amplitude and frequency, side over backwards for the additional multiplier, 1 otherwise |
| Movement.MovementController.ApplyBob | Assets/Scripts/Player/MovementController.cs:525-537 | with the multipliers known, the bob advances once and the camera eases towards the head-bob height plus the new offset |
| Movement.MovementController.AdvancePhases | Assets/Scripts/Player/MovementController.cs:525-526 | both phases advance by dt times their frequency times the multiplier |
| Movement.MovementController.ResetHeadBob | Assets/Scripts/Player/MovementController.cs:540-548 | both phases and the offset are zero and the reset flag is set |
| Movement.MovementController.LandCheck | Assets/Scripts/Player/MovementController.cs:550-561 | a Land task starts exactly on the edge from air to ground; otherwise nothing changes |
| Movement.MovementController.StartLand | Assets/Scripts/Player/MovementController.cs:684-704 | the stance becomes LandStep's with a landing: the capture is the camera position and the impact force of the current air time, and the first pass is applied; the invariant is kept |
| Movement.MovementController.LandStepMeans | Assets/Scripts/Player/MovementController.cs:684-704 | a landing appends exactly the Land task capturing the camera position and ImpactForce of the air time, at progress dt / landDuration; its pass writes the camera; nothing else changes and the invariant is kept |
| Movement.MovementController.LandKeeps | Assets/Scripts/Player/MovementController.cs:550-561 | step 12 keeps the stance invariant |
| Movement.MovementController.Gravity | Assets/Scripts/Player/MovementController.cs:594-609 | grounded: timer 0 and y is the push-down; airborne: timer grows by exactly dt and gravity is added; disabled: neither changes |
| Movement.MovementController.JumpCheck | Assets/Scripts/Player/MovementController.cs:563-592 | the counter, y, and the enables change exactly as JumpDecision says, keeping the counter bounded |
| Movement.MovementController.GravityJumpKeeps | Assets/Scripts/Player/MovementController.cs:594-609 | steps 13 and 14 keep the stance invariant, the counter staying within [0, numberOfJumps] |
| Movement.MovementController.Locomotion | Assets/Scripts/Player/MovementController.cs:197-209 | the movement input check and steps 2 to 9: hasMovementInput, ground, normal, wall flag, normalised and smoothed input, flattened direction, target speed, smoothed direction and speed and final speed are exactly Locomote's from the previous motion, and the movement vector is Moved's |
| Movement.MovementController.CrouchAndBob | Assets/Scripts/Player/MovementController.cs:211-212 | steps 10 and 11: the stance becomes BobStep of CrouchStep (the head bob seeing isCrouching after the crouch check), the invariant is kept and no task is removed |
| Movement.MovementController.LandGravityJump | Assets/Scripts/Player/MovementController.cs:213-216 | steps 12 to 14: the stance becomes JumpStep of GravityStep of LandStep (the impact uses the air time before gravity), the movement vector is FallAndJump's (grounded push-down or airborne gravity, then the jump speed), the invariant is kept |
| Movement.MovementController.Actions | Assets/Scripts/Player/MovementController.cs:211-216 | steps 10 to 14 keep the invariant, never remove a task, and leave the movement vector as FallAndJump says |
| Movement.MovementController.ActionsKeep | Assets/Scripts/Player/MovementController.cs:211-216 | the five stance steps in sequence keep the stance invariant |
| Movement.MovementController.ActionsMeans | Assets/Scripts/Player/MovementController.cs:211-216 | steps 10 to 14 combined: isCrouching flips and the animation starts exactly on a crouch; exactly a crouch task, then a land task capturing the camera the head bob left and the air time before gravity, are appended; the land pass writes the camera last; the bob advances, stays or is reset; timer by AirTime, counter by JumpDecision on the new isCrouching; the enables stay on only without a crouch and without JumpDecision switching them off |
| Movement.MovementController.Tick | Assets/Scripts/Player/MovementController.cs:191-222 | with movement disabled or components missing nothing changes and nothing moves; otherwise the motion is finalMovementVector * dt, that vector is Moved then FallAndJump from the previous one, and the ground edge is remembered; the invariant is kept |
| Movement.MovementController.Update | Assets/Scripts/Player/MovementController.cs:195-219 | one tick: the invariant holds (counter in range, timer non-negative, height in range), no task is removed, the movement vector is step 9's horizontal motion then gravity and the jump (Moved, FallAndJump), the motion is that vector times dt, and the ground edge is remembered |
| Movement.MovementController.ResumeTasks | Assets/Scripts/Player/MovementController.cs:620-711 | the first n tasks become their survivors; ends reset the counter, re-enable crouching and jumping and stop the crouch animation as the ends say; the pose is the last survivor's pass |
| Movement.MovementController.ResumeStep | Assets/Scripts/Player/MovementController.cs:660-710 | one more task resumed keeps the scheduler's invariant |
| Movement.MovementController.ResumeOne | Assets/Scripts/Player/MovementController.cs:660-710 | one resumption is Resume: a pass writes the pose, an end runs the code after the loop |
| Movement.MovementController.CrouchEnd | Assets/Scripts/Player/MovementController.cs:674-681 | crouching is re-enabled, jumping only when standing, and the animation stops |
| Movement.MovementController.LandEnd | Assets/Scripts/Player/MovementController.cs:707-710 | the jump counter resets to 0 and jumping and crouching are re-enabled |
| Player.Frame | Assets/Scripts/Player/MovementController.cs:191-222 | a frame keeps both controllers' invariants and moves the player exactly when movement is enabled and the components are present, by finalMovementVector * dt |
| Player.Updates | Assets/Scripts/Player/InputHandler.cs:80-88 | with input enabled the movement vector, mouse vector and zoom edges the tick sees are this frame's samples (kept otherwise); the tick keeps the earlier tasks as a prefix of the new list and moves by finalMovementVector * dt |
| Player.Coroutines | Assets/Scripts/Player/MovementController.cs:660-705 | the movement tasks that were live before the Update become their survivors, followed by the tasks started this frame; the counter, the enables and the crouch animation are as the crouch and land completions among them say (FlagsAfter); the camera position, height and centre are the last survivors' passes (PoseAfter); the zoom tasks become their survivors and the field of view is the last one's pass; no other field changes and the movement invariant is kept |

## Left out

- The body rotation (`RotateToCamera`, `Quaternion.Slerp`) and the transform's Euler-angle writes. The player's forward and right vectors are inputs of each tick.
- The internals of `Physics.SphereCast`, `CharacterController.isGrounded` and `CeilingCheck`. Their results are boolean inputs, along with the ground normal.
- `CharacterController.Move`: `Tick` returns the motion it would be given.
- Camera breathing, Perlin noise and its random seeding, cursor locking, the singleton `Awake` checks, `NoclipCheck`, `Debug.DrawRay` and `finalRayLength`. These are engine calls, randomness or debug output.
- The code that switches the `enable…` flags of the three scripts on and off from outside. The model keeps them as fields.
- Square roots. `Vector2.normalized` takes the vector's magnitude as an input, required to square to the squared magnitude. `PlayerCanRun` uses a square-root-free test that `NormalizedDotAtLeastMeansDot` proves equal to the dot-product test.
- `AnimationCurve` sampling. Curves are arbitrary functions, and the range a property needs is assumed in its contract.
- Floating-point rounding. Unity's `Vector2 ==` tolerance and normalisation threshold are kept, but arithmetic is exact.
- Zero and negative durations. `Transition.Speed` requires a positive crouch, land or zoom duration. The code divides by the duration and does not guard against zero; with a negative duration the progress falls at every pass, so the `while (progress < 1)` loop never ends.
- Input.HasMovementInput: the two-way "movement input exactly when the vector is not (0, 0)" holds only for readings that are 0 or at least 1e-5 away from it (`HasMovementInputExact`), because Unity's `Vector2 ==` is approximate.
- Movement.MovementController.HeadBobCheck: the guard that calls `ResetHeadBob` at most once per idle stretch is modelled, but its contract states only the state after the step, which is the same however often the reset runs.
- Movement.MovementController.Tick: its contract states the invariant, the motion and the movement vector, but not the stance or the Locomote fields. Those facts are stated on `Locomotion`, `CrouchAndBob` and `LandGravityJump` and combined in `ActionsMeans`; restating them on the composites makes their proofs too costly.
- Movement.MovementController.Update: as for `Tick`, the stance after steps 10 to 14 and the fields of steps 2 to 8 are stated on `Locomotion`, `CrouchAndBob` and `LandGravityJump` (and combined by `ActionsStep` and `ActionsMeans`), not on `Update`.
- Movement.MovementController.Actions: states the invariant, that no task is removed and the movement vector, but not the stance; `CrouchAndBob` and `LandGravityJump` state it step by step and `ActionsMeans` states the combination.
- Player.Frame: states the invariants and the motion, not the whole new state. The sampled input is stated on `InputHandler.Update`, the tick's state on `Tick` and its parts, the coroutine phase on `Coroutines` and the camera on `CameraController.LateUpdate`.
- Player.Updates: states the input samples the tick reads, not every sampled flag (those are on `InputHandler.Update`), nor the tick's stance.
