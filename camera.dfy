/** `CameraManager` (src/cameraManager.js): orbit state driven by pointer
    and wheel events, eased back into bounds and placed, with collision
    pull-in and smoothing, once per frame. */
module Cameras {
  import opened Vectors
  import opened Wrappers
  import opened Orbit
  import opened SceneGraph

  /** The keys of `config.camera` the controller reads; None is an absent key. */
  datatype CameraConfig = CameraConfig(
    initialYaw: Option<real>,
    initialPitch: Option<real>,
    initialDistance: Option<real>,
    sensitivity: Option<real>,
    minPitch: Option<real>,
    maxPitch: Option<real>,
    minDistance: Option<real>,
    maxDistance: Option<real>,
    maxYaw: Option<real>,
    minYaw: Option<real>,
    overshootYaw: Option<real>,
    overshootPitch: Option<real>)

  /** `value || fallback`: an absent key, and equally a key set to 0, takes
      the fallback. */
  function OrDefault(o: Option<real>, fallback: real): (r: real)
    ensures o.Some? && o.value != 0.0 ==> r == o.value
    ensures o == None || o == Some(0.0) ==> r == fallback
  {
    if o.Some? && o.value != 0.0 then o.value else fallback
  }

  /** Degrees to radians, `deg * (Math.PI / 180)`. */
  function Radians(deg: real, m: MathLib): real {
    deg * (m.pi / 180.0)
  }

  /** The fields of a pointer event the handlers read. */
  datatype PointerEvent = PointerEvent(button: int, pointerType: string, clientX: real, clientY: real)

  /** A drag starts with the primary mouse button, a touch or a pen. */
  predicate StartsDrag(e: PointerEvent) {
    e.button == 0 || e.pointerType == "touch" || e.pointerType == "pen"
  }

  /** Where `getFocusPosition` comes from: the accessor given at
      construction, or the fixed point installed by `updateFocusPosition`. */
  datatype FocusSource = Accessor | Fixed(point: Vec3)

  /** The focus for this frame; `live` is what the original accessor returns. */
  function CurrentFocus(src: FocusSource, live: Vec3): (f: Vec3)
    ensures src.Accessor? ==> f == live
  {
    match src
    case Accessor => live
    case Fixed(p) => p
  }

  class CameraManager {
    var yaw: real
    var pitch: real
    var distance: real
    const sensitivity: real
    const minPitch: real
    const maxPitch: real
    const minDistance: real
    const maxDistance: real
    const lerpAlpha: real
    var lerpTarget: Vec3
    var isDragging: bool
    var lastMouseX: real
    var lastMouseY: real
    const maxYaw: real
    const minYaw: real
    const overshootYaw: real
    const overshootPitch: real
    const overshootDecay: real
    var overshootYawValue: real
    var overshootPitchValue: real
    var focus: FocusSource
    const collisionObjects: MeshList
    const collisionRadius: real
    /** `camera.position` and the point last passed to `camera.lookAt`. */
    var cameraPosition: Vec3
    var lookTarget: Vec3

    /** Ordered hard bounds and non-negative overshoot margins. */
    predicate Sane()
      reads this
    {
      minYaw <= maxYaw && minPitch <= maxPitch && overshootYaw >= 0.0 && overshootPitch >= 0.0
    }

    /** Yaw and pitch lie within their bounds widened by the overshoot margins. */
    predicate Banded()
      reads this
    {
      && minYaw - overshootYaw <= yaw <= maxYaw + overshootYaw
      && minPitch - overshootPitch <= pitch <= maxPitch + overshootPitch
    }

    /** An angle outside its hard bounds always has a non-zero deviation
        recorded, so `update()` keeps correcting it. */
    predicate Tracked()
      reads this
    {
      && (yaw < minYaw || maxYaw < yaw ==> overshootYawValue != 0.0)
      && (pitch < minPitch || maxPitch < pitch ==> overshootPitchValue != 0.0)
    }

    /** `collisionObjects` omitted (None) defaults to a new empty list. */
    constructor (config: CameraConfig, collisionObjects: Option<MeshList>, collisionRadius: Option<real>,
                 cameraPosition: Vec3, m: MathLib)
      ensures yaw == Radians(OrDefault(config.initialYaw, 0.0), m)
      ensures pitch == Radians(OrDefault(config.initialPitch, 0.0), m)
      ensures distance == OrDefault(config.initialDistance, 5.0)
      ensures sensitivity == OrDefault(config.sensitivity, 0.01)
      ensures minPitch == Radians(OrDefault(config.minPitch, -30.0), m)
      ensures maxPitch == Radians(OrDefault(config.maxPitch, 30.0), m)
      ensures minDistance == OrDefault(config.minDistance, 2.0)
      ensures maxDistance == OrDefault(config.maxDistance, 20.0)
      ensures maxYaw == Radians(config.maxYaw.GetOr(360.0), m)
      ensures minYaw == Radians(config.minYaw.GetOr(-360.0), m)
      ensures overshootYaw == Radians(OrDefault(config.overshootYaw, 0.0), m)
      ensures overshootPitch == Radians(OrDefault(config.overshootPitch, 0.0), m)
      ensures lerpAlpha == 0.12 && overshootDecay == Decay
      ensures overshootYawValue == 0.0 && overshootPitchValue == 0.0
      ensures !isDragging && lastMouseX == 0.0 && lastMouseY == 0.0 && lerpTarget == Zero
      ensures focus == Accessor
      ensures collisionObjects.Some? ==> this.collisionObjects == collisionObjects.value
      ensures collisionObjects.None? ==> fresh(this.collisionObjects) && this.collisionObjects.items == []
      ensures this.collisionRadius == collisionRadius.GetOr(0.25)
      ensures this.cameraPosition == cameraPosition && lookTarget == Zero
    {
      yaw := Radians(OrDefault(config.initialYaw, 0.0), m);
      pitch := Radians(OrDefault(config.initialPitch, 0.0), m);
      distance := OrDefault(config.initialDistance, 5.0);
      sensitivity := OrDefault(config.sensitivity, 0.01);
      minPitch := Radians(OrDefault(config.minPitch, -30.0), m);
      maxPitch := Radians(OrDefault(config.maxPitch, 30.0), m);
      minDistance := OrDefault(config.minDistance, 2.0);
      maxDistance := OrDefault(config.maxDistance, 20.0);
      lerpAlpha := 0.12;
      lerpTarget := Zero;
      isDragging := false;
      lastMouseX := 0.0;
      lastMouseY := 0.0;
      maxYaw := Radians(config.maxYaw.GetOr(360.0), m);
      minYaw := Radians(config.minYaw.GetOr(-360.0), m);
      overshootYaw := Radians(OrDefault(config.overshootYaw, 0.0), m);
      overshootPitch := Radians(OrDefault(config.overshootPitch, 0.0), m);
      overshootDecay := Decay;
      overshootYawValue := 0.0;
      overshootPitchValue := 0.0;
      focus := Accessor;
      if collisionObjects.Some? {
        this.collisionObjects := collisionObjects.value;
      } else {
        this.collisionObjects := new MeshList();
      }
      this.collisionRadius := collisionRadius.GetOr(0.25);
      this.cameraPosition := cameraPosition;
      lookTarget := Zero;
    }

    /** The wheel handler: zoom by deltaY·0.01, hard-clamped to
        [minDistance, maxDistance]. */
    method OnWheel(deltaY: real)
      modifies this`distance
      ensures distance == Clamp(old(distance) + deltaY * 0.01, minDistance, maxDistance)
      ensures minDistance <= maxDistance ==> minDistance <= distance <= maxDistance
    {
      distance := distance + deltaY * 0.01;
      distance := Clamp(distance, minDistance, maxDistance);
    }

    /** The pointerdown handler. */
    method OnPointerDown(e: PointerEvent)
      modifies this`isDragging, this`lastMouseX, this`lastMouseY
      ensures StartsDrag(e) ==> isDragging && lastMouseX == e.clientX && lastMouseY == e.clientY
      ensures !StartsDrag(e) ==>
        isDragging == old(isDragging) && lastMouseX == old(lastMouseX) && lastMouseY == old(lastMouseY)
    {
      if StartsDrag(e) {
        isDragging := true;
        lastMouseX := e.clientX;
        lastMouseY := e.clientY;
      }
    }

    /** The pointerup handler. */
    method OnPointerUp()
      modifies this`isDragging
      ensures !isDragging
    {
      isDragging := false;
    }

    /** The pointermove handler: while dragging, yaw -= dx·sensitivity and
        pitch += dy·sensitivity; the deviation is recorded from the unclamped
        angle, which is then clamped into the overshoot band. */
    method OnPointerMove(clientX: real, clientY: real)
      modifies this`yaw, this`pitch, this`overshootYawValue, this`overshootPitchValue,
               this`lastMouseX, this`lastMouseY
      ensures !isDragging ==>
        && yaw == old(yaw) && pitch == old(pitch)
        && overshootYawValue == old(overshootYawValue) && overshootPitchValue == old(overshootPitchValue)
        && lastMouseX == old(lastMouseX) && lastMouseY == old(lastMouseY)
      ensures isDragging ==>
        var rawYaw := old(yaw) - (clientX - old(lastMouseX)) * sensitivity;
        var rawPitch := old(pitch) + (clientY - old(lastMouseY)) * sensitivity;
        && overshootYawValue == Deviation(rawYaw, minYaw, maxYaw)
        && overshootPitchValue == Deviation(rawPitch, minPitch, maxPitch)
        && yaw == Clamp(rawYaw, minYaw - overshootYaw, maxYaw + overshootYaw)
        && pitch == Clamp(rawPitch, minPitch - overshootPitch, maxPitch + overshootPitch)
        && lastMouseX == clientX && lastMouseY == clientY
      ensures Sane() && isDragging ==> Banded() && Tracked()
      ensures Sane() && old(Banded() && Tracked()) ==> Banded() && Tracked()
    {
      if isDragging {
        var rawYaw := yaw - (clientX - lastMouseX) * sensitivity;
        var rawPitch := pitch + (clientY - lastMouseY) * sensitivity;
        overshootYawValue := Deviation(rawYaw, minYaw, maxYaw);
        overshootPitchValue := Deviation(rawPitch, minPitch, maxPitch);
        yaw := Clamp(rawYaw, minYaw - overshootYaw, maxYaw + overshootYaw);
        pitch := Clamp(rawPitch, minPitch - overshootPitch, maxPitch + overshootPitch);
        lastMouseX := clientX;
        lastMouseY := clientY;
        if Sane() {
          ClampIntoBand(rawYaw, minYaw, maxYaw, overshootYaw);
          ClampIntoBand(rawPitch, minPitch, maxPitch, overshootPitch);
        }
      }
    }

    /** The state one `update()` leaves, from the state it started in: yaw
        and pitch take one easing step (a correction only while a
        deviation is recorded), the orbit point at the current distance is
        the new lerp target, the camera moves `lerpAlpha` of the way to that
        point or, when a collider is hit first, to the corrected point in
        front of it, and it looks at the focus. Distance, drag state and the
        recorded deviations do not change. */
    twostate predicate Updated(live: Vec3, hits: seq<real>, m: MathLib)
      reads this, collisionObjects
    {
      && yaw == Ease(old(yaw), minYaw, maxYaw, overshootYawValue != 0.0)
      && pitch == Ease(old(pitch), minPitch, maxPitch, overshootPitchValue != 0.0)
      && (var f := CurrentFocus(focus, live);
          && lerpTarget == OrbitPoint(f, yaw, pitch, distance, m)
          && cameraPosition == Lerp(old(cameraPosition),
               FinalTarget(f, lerpTarget, distance, collisionRadius, |collisionObjects.items| > 0, hits, m), lerpAlpha)
          && lookTarget == f)
      && distance == old(distance) && focus == old(focus)
      && isDragging == old(isDragging) && lastMouseX == old(lastMouseX) && lastMouseY == old(lastMouseY)
      && overshootYawValue == old(overshootYawValue) && overshootPitchValue == old(overshootPitchValue)
    }

    /** `update()`. `live` is the point the focus accessor returns this frame
        and `hits` the distances of the ray hits, nearest first, that
        `intersectObjects` reports. */
    method Update(live: Vec3, hits: seq<real>, m: MathLib)
      modifies this`yaw, this`pitch, this`lerpTarget, this`cameraPosition, this`lookTarget
      ensures Updated(live, hits, m)
      ensures Sane() && old(Banded()) ==> Banded()
      ensures Sane() && old(Tracked()) ==> Tracked()
    {
      yaw := Ease(yaw, minYaw, maxYaw, overshootYawValue != 0.0);
      pitch := Ease(pitch, minPitch, maxPitch, overshootPitchValue != 0.0);
      var f := CurrentFocus(focus, live);
      lerpTarget := OrbitPoint(f, yaw, pitch, distance, m);
      var finalTarget := FinalTarget(f, lerpTarget, distance, collisionRadius, |collisionObjects.items| > 0, hits, m);
      cameraPosition := Lerp(cameraPosition, finalTarget, lerpAlpha);
      lookTarget := f;
    }

    /** `updateFocusPosition(p)`: from now on the focus is p. */
    method UpdateFocusPosition(p: Vec3)
      modifies this`focus
      ensures focus == Fixed(p)
    {
      focus := Fixed(p);
    }
  }
}
