/** CameraController (Assets/Scripts/Player/CameraController.cs): mouse look with a clamped,
    smoothed yaw and pitch, and the zoom toggle that drives the field of view through the
    ZoomFOV transition.  The camera transform's local position lives here as well, because
    the movement script writes it (head bob, crouch and land). */
module Camera {
  import opened Unity
  import opened Transition
  import Input

  /** The inspector settings the look and zoom code reads.  The zoom curve is an
      AnimationCurve, modelled as an arbitrary function. */
  datatype CameraSettings = CameraSettings(
    zoom: bool, sensitivity: Vec2, smoothness: Vec2, lookAngle: Vec2,
    zoomFOV: real, zoomCurve: real -> real, zoomTransitionDuration: real)

  /** What ZoomFOV captures when it starts: the live field of view and the target. */
  datatype ZoomCapture = ZoomCapture(startFOV: real, targetFOV: real)

  /** The pitch after one frame of look input: the accumulated pitch, clamped to the
      look angles (lookAngle.x is the lower bound, tested first). */
  function PitchStep(pitch: real, mouseY: real, sensitivityY: real, dt: real, lookAngle: Vec2): (r: real)
    ensures lookAngle.x <= lookAngle.y ==> lookAngle.x <= r <= lookAngle.y
    ensures lookAngle.x <= pitch - mouseY * sensitivityY * dt <= lookAngle.y ==> r == pitch - mouseY * sensitivityY * dt
  {
    Clamp(pitch - mouseY * sensitivityY * dt, lookAngle.x, lookAngle.y)
  }

  /** The target of a new zoom transition: back to the normal field of view when zoomed
      in, to the zoom field of view otherwise. */
  function ZoomTarget(isZoomedIn: bool, normalFOV: real, zoomFOV: real): real
  {
    if isZoomedIn then normalFOV else zoomFOV
  }

  /** The field of view one pass of the ZoomFOV loop writes at the given progress.  Lerp
      clamps the curve's output, so it never leaves the captured range, and a curve that
      has reached 1 lands exactly on the target. */
  function ZoomFOVAt(c: ZoomCapture, curve: real -> real, progress: real): (r: real)
    ensures Between(r, c.startFOV, c.targetFOV)
    ensures Evaluate(curve, progress) >= 1.0 ==> r == c.targetFOV
    ensures Evaluate(curve, progress) <= 0.0 ==> r == c.startFOV
  {
    LerpBounds(c.startFOV, c.targetFOV, Evaluate(curve, progress));
    Lerp(c.startFOV, c.targetFOV, Evaluate(curve, progress))
  }

  /** Two zoom starts in a row go to the zoom field of view and back, whatever the field
      of view was when each started. */
  lemma ZoomTogglesBack(isZoomedIn: bool, normalFOV: real, zoomFOV: real)
    ensures ZoomTarget(!isZoomedIn, normalFOV, zoomFOV) != ZoomTarget(isZoomedIn, normalFOV, zoomFOV) <==> normalFOV != zoomFOV
    ensures !isZoomedIn ==> ZoomTarget(isZoomedIn, normalFOV, zoomFOV) == zoomFOV && ZoomTarget(!isZoomedIn, normalFOV, zoomFOV) == normalFOV
  {
  }

  class CameraController {
    const settings: CameraSettings
    /** The main camera's field of view read in Start. */
    const normalFOV: real
    var cameraYaw: real
    var cameraPitch: real
    var smoothCameraYaw: real
    var smoothCameraPitch: real
    /** mainCamera.fieldOfView */
    var fieldOfView: real
    /** transform.localPosition of the camera object */
    var localPosition: Vec3
    var enableCameraMovement: bool
    /** The live ZoomFOV coroutines, oldest first. */
    var zoomTasks: seq<Task<ZoomCapture>>

    /** The one assumption the zoom loop needs of the settings: a positive duration, so
        that its speed 1 / duration is defined and positive. */
    predicate Valid()
    {
      settings.zoomTransitionDuration > 0.0
    }

    /** The field initialisers followed by Start, which records the starting field of view
        as the normal one. */
    constructor (settings: CameraSettings, fieldOfView: real, localPosition: Vec3)
      ensures this.settings == settings && normalFOV == fieldOfView && this.fieldOfView == fieldOfView
      ensures this.localPosition == localPosition
      ensures cameraYaw == 0.0 && cameraPitch == 0.0 && smoothCameraYaw == 0.0 && smoothCameraPitch == 0.0
      ensures !enableCameraMovement && zoomTasks == []
    {
      this.settings := settings;
      normalFOV := fieldOfView;
      this.fieldOfView := fieldOfView;
      this.localPosition := localPosition;
      cameraYaw, cameraPitch, smoothCameraYaw, smoothCameraPitch := 0.0, 0.0, 0.0, 0.0;
      enableCameraMovement := false;
      zoomTasks := [];
    }

    /** LateUpdate without the breathing noise: look and zoom run only while camera
        movement is enabled. */
    method LateUpdate(ih: Input.InputHandler, dt: real)
      requires Valid()
      modifies this`cameraYaw, this`cameraPitch, this`smoothCameraYaw, this`smoothCameraPitch,
        this`fieldOfView, this`zoomTasks, ih`isZoomedIn
      ensures !old(enableCameraMovement) ==> unchanged(this) && ih.isZoomedIn == old(ih.isZoomedIn)
      ensures old(enableCameraMovement) && settings.lookAngle.x <= settings.lookAngle.y ==>
        settings.lookAngle.x <= cameraPitch <= settings.lookAngle.y
      ensures |zoomTasks| == |old(zoomTasks)| + (if enableCameraMovement && ZoomRequested(ih) then 1 else 0)
      ensures old(enableCameraMovement) ==>
        && cameraYaw == old(cameraYaw) + ih.mouseInputVector.x * settings.sensitivity.x * dt
        && cameraPitch == PitchStep(old(cameraPitch), ih.mouseInputVector.y, settings.sensitivity.y, dt, settings.lookAngle)
        && smoothCameraYaw == Lerp(old(smoothCameraYaw), cameraYaw, settings.smoothness.x * dt)
        && smoothCameraPitch == Lerp(old(smoothCameraPitch), cameraPitch, settings.smoothness.y * dt)
      ensures old(enableCameraMovement) && ZoomRequested(ih) ==>
        ZoomStarted(ih, dt, old(fieldOfView), old(zoomTasks), old(ih.isZoomedIn))
      ensures old(enableCameraMovement) && !ZoomRequested(ih) ==>
        fieldOfView == old(fieldOfView) && zoomTasks == old(zoomTasks) && ih.isZoomedIn == old(ih.isZoomedIn)
    {
      if enableCameraMovement {
        CameraRotation(ih, dt);
        ZoomCheck(ih, dt);
      }
    }

    /** The zoom edges ZoomCheck reacts to. */
    predicate ZoomRequested(ih: Input.InputHandler)
      reads ih`zoomClicked, ih`zoomReleased
    {
      settings.zoom && (ih.zoomClicked || ih.zoomReleased)
    }

    /** Yaw accumulates without a bound; pitch accumulates and is clamped; the smoothed
        copies move towards them by a clamped lerp, so each ends between its previous
        value and its target. */
    method CameraRotation(ih: Input.InputHandler, dt: real)
      modifies this`cameraYaw, this`cameraPitch, this`smoothCameraYaw, this`smoothCameraPitch
      ensures cameraYaw == old(cameraYaw) + ih.mouseInputVector.x * settings.sensitivity.x * dt
      ensures cameraPitch == PitchStep(old(cameraPitch), ih.mouseInputVector.y, settings.sensitivity.y, dt, settings.lookAngle)
      ensures smoothCameraYaw == Lerp(old(smoothCameraYaw), cameraYaw, settings.smoothness.x * dt)
      ensures smoothCameraPitch == Lerp(old(smoothCameraPitch), cameraPitch, settings.smoothness.y * dt)
      ensures Between(smoothCameraYaw, old(smoothCameraYaw), cameraYaw)
      ensures Between(smoothCameraPitch, old(smoothCameraPitch), cameraPitch)
    {
      var mouse := ih.mouseInputVector;
      cameraYaw := cameraYaw + mouse.x * settings.sensitivity.x * dt;
      cameraPitch := PitchStep(cameraPitch, mouse.y, settings.sensitivity.y, dt, settings.lookAngle);
      LerpBounds(smoothCameraYaw, cameraYaw, settings.smoothness.x * dt);
      LerpBounds(smoothCameraPitch, cameraPitch, settings.smoothness.y * dt);
      smoothCameraYaw := Lerp(smoothCameraYaw, cameraYaw, settings.smoothness.x * dt);
      smoothCameraPitch := Lerp(smoothCameraPitch, cameraPitch, settings.smoothness.y * dt);
    }

    /** A zoom transition starts exactly when zoom is enabled and the zoom button went down
        or up this frame.  Stopping a fresh enumerator cancels nothing, so a transition
        already under way keeps running beside the new one. */
    method ZoomCheck(ih: Input.InputHandler, dt: real)
      requires Valid()
      modifies this`fieldOfView, this`zoomTasks, ih`isZoomedIn
      ensures ZoomRequested(ih) ==> ZoomStarted(ih, dt, old(fieldOfView), old(zoomTasks), old(ih.isZoomedIn))
      ensures !ZoomRequested(ih) ==> fieldOfView == old(fieldOfView) && zoomTasks == old(zoomTasks) && ih.isZoomedIn == old(ih.isZoomedIn)
    {
      if settings.zoom {
        if ih.zoomClicked || ih.zoomReleased {
          StartZoom(ih, dt);
        }
      }
    }

    /** The state right after StartCoroutine(ZoomFOV()): isZoomedIn flipped, one more live
        task that captured the field of view of the moment, and the first pass applied. */
    ghost predicate ZoomStarted(ih: Input.InputHandler, dt: real, fov: real, tasks: seq<Task<ZoomCapture>>, wasZoomedIn: bool)
      requires Valid()
      reads this`fieldOfView, this`zoomTasks, ih`isZoomedIn
    {
      var c := ZoomCapture(fov, ZoomTarget(wasZoomedIn, normalFOV, settings.zoomFOV));
      var t := Start(c, Speed(settings.zoomTransitionDuration), dt);
      && ih.isZoomedIn == !wasZoomedIn
      && zoomTasks == tasks + [t]
      && fieldOfView == ZoomFOVAt(c, settings.zoomCurve, t.progress)
    }

    /** StartCoroutine(ZoomFOV()): everything up to the first `yield return null`. */
    method StartZoom(ih: Input.InputHandler, dt: real)
      requires Valid()
      modifies this`fieldOfView, this`zoomTasks, ih`isZoomedIn
      ensures ZoomStarted(ih, dt, old(fieldOfView), old(zoomTasks), old(ih.isZoomedIn))
    {
      var currentFOV := fieldOfView;
      var targetFOV;
      if ih.isZoomedIn {
        targetFOV := normalFOV;
      } else {
        targetFOV := settings.zoomFOV;
      }
      ih.isZoomedIn := !ih.isZoomedIn;
      var zoomTransitionSpeed := Speed(settings.zoomTransitionDuration);
      var progress := 0.0 + dt * zoomTransitionSpeed;
      var task := Task(progress, zoomTransitionSpeed, ZoomCapture(currentFOV, targetFOV));
      assert task == Start(task.capture, zoomTransitionSpeed, dt);
      fieldOfView := Lerp(currentFOV, targetFOV, Evaluate(settings.zoomCurve, progress));
      zoomTasks := zoomTasks + [task];
    }

    /** One frame of the coroutine scheduler for the ZoomFOV tasks: each live task, oldest
        first, either finds its progress at 1 or more and ends, or runs one more pass and
        writes the field of view.  The last task that ran wins. */
    method ResumeZoomTasks(dt: real)
      requires Valid()
      modifies this`fieldOfView, this`zoomTasks
      ensures zoomTasks == Survivors(old(zoomTasks), dt)
      ensures zoomTasks == [] ==> fieldOfView == old(fieldOfView)
      ensures zoomTasks != [] ==>
        fieldOfView == ZoomFOVAt(zoomTasks[|zoomTasks| - 1].capture, settings.zoomCurve, zoomTasks[|zoomTasks| - 1].progress)
    {
      var tasks := zoomTasks;
      var kept: seq<Task<ZoomCapture>> := [];
      var i := 0;
      while i < |tasks|
        invariant 0 <= i <= |tasks|
        invariant kept == Survivors(tasks[..i], dt)
        invariant kept == [] ==> fieldOfView == old(fieldOfView)
        invariant kept != [] ==>
          fieldOfView == ZoomFOVAt(kept[|kept| - 1].capture, settings.zoomCurve, kept[|kept| - 1].progress)
        decreases |tasks| - i
      {
        assert tasks[..i + 1][..i] == tasks[..i];
        var t := tasks[i];
        if t.progress < 1.0 {
          var progress := t.progress + dt * t.speed;
          var resumed := Resume(t, dt);
          assert resumed.Some? && resumed.value.capture == t.capture;
          assert resumed.value == Task(progress, t.speed, t.capture);
          fieldOfView := Lerp(t.capture.startFOV, t.capture.targetFOV, Evaluate(settings.zoomCurve, progress));
          kept := kept + [Task(progress, t.speed, t.capture)];
        }
        i := i + 1;
      }
      assert tasks[..i] == tasks;
      zoomTasks := kept;
    }
  }
}
