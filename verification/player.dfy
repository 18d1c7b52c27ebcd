/** One rendered frame of the three scripts together.  The order of Update calls between
    scripts is not fixed by the engine; the model runs InputHandler before
    MovementController, so that a frame's movement reads that frame's input. */
module Player {
  import opened Unity
  import Transition
  import Input
  import Camera
  import Movement

  /** Every Update, then the coroutines waiting on `yield return null` (the movement tasks
      that were live before this frame's Update, then the zoom tasks), then LateUpdate.
      The movement script moves the player in exactly the frames where it is enabled and
      its components are present, and both controllers keep their invariants. */
  method Frame(ih: Input.InputHandler, mc: Movement.MovementController, cam: Camera.CameraController,
               s: Input.DeviceSample, p: Movement.Probes, b: Movement.Body, dt: real)
    returns (motion: Option<Vec3>)
    requires mc.input == ih && mc.camera == cam
    requires mc.Valid() && cam.Valid() && dt >= 0.0
    requires 0.0 <= b.inputMagnitude
    requires b.inputMagnitude * b.inputMagnitude ==
      SqrMagnitude2(if ih.enableInput then Vec2(s.movement.horizontal, s.movement.vertical) else ih.movementInputVector)
    modifies ih, mc, cam
    ensures mc.Valid() && cam.Valid()
    ensures motion.Some? <==> old(mc.enablePlayerMovement) && b.componentsPresent
    ensures motion.Some? ==> motion.value == Scale3(mc.finalMovementVector, dt)
  {
    var n;
    motion, n := Updates(ih, mc, cam, s, p, b, dt);
    Coroutines(mc, cam, n, dt);
    cam.LateUpdate(ih, dt);
  }

  /** The Update calls: InputHandler samples the devices, then MovementController runs.
      n is the number of movement tasks that were live before. */
  method Updates(ih: Input.InputHandler, mc: Movement.MovementController, cam: Camera.CameraController,
                 s: Input.DeviceSample, p: Movement.Probes, b: Movement.Body, dt: real)
    returns (motion: Option<Vec3>, n: nat)
    requires mc.input == ih && mc.camera == cam
    requires mc.Valid() && dt >= 0.0
    requires 0.0 <= b.inputMagnitude
    requires b.inputMagnitude * b.inputMagnitude ==
      SqrMagnitude2(if ih.enableInput then Vec2(s.movement.horizontal, s.movement.vertical) else ih.movementInputVector)
    modifies ih, mc, cam`localPosition
    ensures mc.Valid() && n == |old(mc.tasks)| && old(mc.tasks) <= mc.tasks
    ensures motion.Some? <==> old(mc.enablePlayerMovement) && b.componentsPresent
    ensures motion.Some? ==> motion.value == Scale3(mc.finalMovementVector, dt)
    ensures old(ih.enableInput) ==> ih.movementInputVector == Vec2(s.movement.horizontal, s.movement.vertical)
    ensures old(ih.enableInput) ==> ih.mouseInputVector == Vec2(s.camera.x, s.camera.y)
    ensures old(ih.enableInput) ==> ih.zoomClicked == s.camera.zoomDown && ih.zoomReleased == s.camera.zoomUp
    ensures !old(ih.enableInput) ==> ih.movementInputVector == old(ih.movementInputVector) && ih.mouseInputVector == old(ih.mouseInputVector)
  {
    ih.Update(s);
    n := |mc.tasks|;
    motion := mc.Tick(p, b, dt);
  }

  /** The coroutine phase: the first n movement tasks, then every zoom task. */
  method Coroutines(mc: Movement.MovementController, cam: Camera.CameraController, n: nat, dt: real)
    requires mc.camera == cam
    requires mc.Valid() && cam.Valid() && n <= |mc.tasks|
    modifies mc`tasks, mc`controllerHeight, mc`controllerCenter, mc`crouchAnimation, mc`jumpCounter,
      mc.input`enableJumping, mc.input`enableCrouching, cam`localPosition, cam`fieldOfView, cam`zoomTasks
    ensures mc.Valid()
    ensures mc.tasks == Transition.Survivors(old(mc.tasks)[..n], dt) + old(mc.tasks)[n..]
    ensures mc.FlagsAfter(old(mc.tasks)[..n], old(mc.jumpCounter), old(mc.input.enableCrouching), old(mc.input.enableJumping),
      old(mc.crouchAnimation))
    ensures mc.PoseAfter(Transition.Survivors(old(mc.tasks)[..n], dt), old(cam.localPosition), old(mc.controllerHeight),
      old(mc.controllerCenter))
    ensures cam.zoomTasks == Transition.Survivors(old(cam.zoomTasks), dt)
    ensures cam.zoomTasks == [] ==> cam.fieldOfView == old(cam.fieldOfView)
    ensures cam.zoomTasks != [] ==>
      cam.fieldOfView == Camera.ZoomFOVAt(cam.zoomTasks[|cam.zoomTasks| - 1].capture, cam.settings.zoomCurve,
        cam.zoomTasks[|cam.zoomTasks| - 1].progress)
  {
    mc.ResumeTasks(dt, n);
    cam.ResumeZoomTasks(dt);
  }
}
