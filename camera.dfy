/**
 * Camera: a view and a projection matrix derived from an owned Transform and
 * from optics that the setters keep valid, plus the per-frame Update that
 * moves and turns the transform from the keyboard and mouse.
 */
module Cameras {
  import opened DxMath
  import opened Transforms

  // Defaults of the constructor's optional arguments.
  const DefaultRotation := Zero3
  const DefaultMovementSpeed: real := 1.0
  const DefaultLookSpeed: real := 0.01
  const DefaultIsPerspective := true
  const DefaultFov := PiDiv2
  const DefaultNearPlane: real := 0.1
  const DefaultFarPlane: real := 100.0

  /** Far planes at or beyond this distance are refused. */
  const FarPlaneLimit: real := 1000.0

  /** The pitch the mouse clamp rewrites to: a little less than 90 degrees. */
  const MaxPitch: real := PiDiv2 - 0.001

  /** The optics the setters admit: 0 < fov < pi and 0 < near < far < 1000. */
  predicate OpticsValid(fov: real, nearPlane: real, farPlane: real)
  {
    0.0 < fov < Pi && 0.0 < nearPlane < farPlane < FarPlaneLimit
  }

  function Abs(x: real): real
  {
    if x < 0.0 then -x else x
  }

  /** The input polled during one frame: six keys, the left mouse button and the mouse movement. */
  datatype FrameInput = FrameInput(
    keyW: bool, keyS: bool, keyA: bool, keyD: bool, keyQ: bool, keyE: bool,
    mouseLeftDown: bool, mouseDeltaX: int, mouseDeltaY: int)

  /** How far one key moves along one axis: the whole step if it is held, nothing otherwise. */
  function Held(held: bool, step: real): real
  {
    if held then step else 0.0
  }

  /** One `if (key) Move...(offset)` of the frame, on values. */
  function Press(p: Float3, held: bool, offset: Float3): Float3
  {
    if held then VectorAdd(p, offset) else p
  }

  /** What the Q key adds: one step up along the camera's own up axis. */
  function RelativeLift(pitchYawRoll: Float3, input: FrameInput, step: real, rotateVector: VectorRotation): Float3
  {
    if input.keyQ then rotateVector(pitchYawRoll, Float3(0.0, step, 0.0)) else Zero3
  }

  /**
   * Where the keys take a camera at position p in one frame, moving
   * speed * dt per key, in the source's order W, S, A, D, Q, E.
   */
  function KeyboardMove(p: Float3, pitchYawRoll: Float3, input: FrameInput, speed: real, dt: real,
                        rotateVector: VectorRotation): (r: Float3)
    ensures !input.keyW && !input.keyS && !input.keyA && !input.keyD && !input.keyQ && !input.keyE ==> r == p
    ensures !input.keyQ ==> r.y <= p.y || speed * dt < 0.0
  {
    var p1 := Press(p, input.keyW, Float3(0.0, 0.0, speed * dt));
    var p2 := Press(p1, input.keyS, Float3(0.0, 0.0, -speed * dt));
    var p3 := Press(p2, input.keyA, Float3(-speed * dt, 0.0, 0.0));
    var p4 := Press(p3, input.keyD, Float3(speed * dt, 0.0, 0.0));
    var p5 := Press(p4, input.keyQ, rotateVector(pitchYawRoll, Float3(0.0, speed * dt, 0.0)));
    Press(p5, input.keyE, Float3(0.0, -speed * dt, 0.0))
  }

  /** Six key presses applied one after another, in source order, make up KeyboardMove. */
  lemma KeyboardMoveSteps(p0: Float3, p1: Float3, p2: Float3, p3: Float3, p4: Float3, p5: Float3, p6: Float3,
                          pitchYawRoll: Float3, input: FrameInput, speed: real, dt: real,
                          rotateVector: VectorRotation)
    requires p1 == Press(p0, input.keyW, Float3(0.0, 0.0, speed * dt))
    requires p2 == Press(p1, input.keyS, Float3(0.0, 0.0, -speed * dt))
    requires p3 == Press(p2, input.keyA, Float3(-speed * dt, 0.0, 0.0))
    requires p4 == Press(p3, input.keyD, Float3(speed * dt, 0.0, 0.0))
    requires p5 == Press(p4, input.keyQ, rotateVector(pitchYawRoll, Float3(0.0, speed * dt, 0.0)))
    requires p6 == Press(p5, input.keyE, Float3(0.0, -speed * dt, 0.0))
    ensures p6 == KeyboardMove(p0, pitchYawRoll, input, speed, dt, rotateVector)
  {
  }

  /** A held key adds its whole offset, a released one nothing. */
  lemma PressAdds(p: Float3, held: bool, offset: Float3)
    ensures Press(p, held, offset)
         == Float3(p.x + Held(held, offset.x), p.y + Held(held, offset.y), p.z + Held(held, offset.z))
  {
  }

  /**
   * The net effect of one frame of keys: W/S move along world z, A/D along
   * world x and E down world y, all absolute and independent of the
   * orientation; Q moves one step up the camera-relative y axis.
   */
  lemma KeyboardMoveOffsets(p: Float3, pitchYawRoll: Float3, input: FrameInput, speed: real, dt: real,
                            rotateVector: VectorRotation)
    ensures var r := KeyboardMove(p, pitchYawRoll, input, speed, dt, rotateVector);
            var step := speed * dt;
            var lift := RelativeLift(pitchYawRoll, input, step, rotateVector);
      && r.x == p.x + Held(input.keyD, step) - Held(input.keyA, step) + lift.x
      && r.y == p.y - Held(input.keyE, step) + lift.y
      && r.z == p.z + Held(input.keyW, step) - Held(input.keyS, step) + lift.z
  {
    var step := speed * dt;
    assert -speed * dt == -step;
    var p1 := Press(p, input.keyW, Float3(0.0, 0.0, step));
    PressAdds(p, input.keyW, Float3(0.0, 0.0, step));
    var p2 := Press(p1, input.keyS, Float3(0.0, 0.0, -step));
    PressAdds(p1, input.keyS, Float3(0.0, 0.0, -step));
    var p3 := Press(p2, input.keyA, Float3(-step, 0.0, 0.0));
    PressAdds(p2, input.keyA, Float3(-step, 0.0, 0.0));
    var p4 := Press(p3, input.keyD, Float3(step, 0.0, 0.0));
    PressAdds(p3, input.keyD, Float3(step, 0.0, 0.0));
    var lift := rotateVector(pitchYawRoll, Float3(0.0, step, 0.0));
    var p5 := Press(p4, input.keyQ, lift);
    PressAdds(p4, input.keyQ, lift);
    PressAdds(p5, input.keyE, Float3(0.0, -step, 0.0));
  }

  /** Holding both keys of an opposing pair moves exactly as holding neither. */
  lemma OpposingKeysCancel(p: Float3, pitchYawRoll: Float3, input: FrameInput, speed: real, dt: real,
                           rotateVector: VectorRotation)
    ensures KeyboardMove(p, pitchYawRoll, input.(keyW := true, keyS := true), speed, dt, rotateVector)
         == KeyboardMove(p, pitchYawRoll, input.(keyW := false, keyS := false), speed, dt, rotateVector)
    ensures KeyboardMove(p, pitchYawRoll, input.(keyA := true, keyD := true), speed, dt, rotateVector)
         == KeyboardMove(p, pitchYawRoll, input.(keyA := false, keyD := false), speed, dt, rotateVector)
  {
    KeyboardMoveOffsets(p, pitchYawRoll, input.(keyW := true, keyS := true), speed, dt, rotateVector);
    KeyboardMoveOffsets(p, pitchYawRoll, input.(keyW := false, keyS := false), speed, dt, rotateVector);
    KeyboardMoveOffsets(p, pitchYawRoll, input.(keyA := true, keyD := true), speed, dt, rotateVector);
    KeyboardMoveOffsets(p, pitchYawRoll, input.(keyA := false, keyD := false), speed, dt, rotateVector);
  }

  /** Pitch/yaw/roll after adding the mouse movement, before any clamp. */
  function Turned(pitchYawRoll: Float3, input: FrameInput, lookSpeed: real): (r: Float3)
    ensures r.z == pitchYawRoll.z
    ensures input.mouseDeltaY == 0 ==> r.x == pitchYawRoll.x
    ensures input.mouseDeltaX == 0 ==> r.y == pitchYawRoll.y
  {
    VectorAdd(pitchYawRoll, Float3(input.mouseDeltaY as real * lookSpeed, input.mouseDeltaX as real * lookSpeed, 0.0))
  }

  /**
   * The rotation after one frame of mouse look: unchanged while the button
   * is up; otherwise the mouse movement is added and, if the pitch then
   * exceeds 90 degrees either way, the whole rotation is replaced by a pitch
   * of just under 90 degrees on the same side, with yaw and roll zero.
   */
  function MouseLook(pitchYawRoll: Float3, input: FrameInput, lookSpeed: real): (r: Float3)
    ensures !input.mouseLeftDown ==> r == pitchYawRoll
    ensures input.mouseLeftDown ==> Abs(r.x) <= PiDiv2
    ensures (input.mouseLeftDown && Abs(Turned(pitchYawRoll, input, lookSpeed).x) <= PiDiv2)
      ==> r == Turned(pitchYawRoll, input, lookSpeed)
    ensures (input.mouseLeftDown && Abs(Turned(pitchYawRoll, input, lookSpeed).x) > PiDiv2)
      ==> (&& r.y == 0.0 && r.z == 0.0 && Abs(r.x) == MaxPitch
           && (r.x > 0.0 <==> Turned(pitchYawRoll, input, lookSpeed).x > 0.0))
  {
    if !input.mouseLeftDown then pitchYawRoll
    else
      var turned := Turned(pitchYawRoll, input, lookSpeed);
      if Abs(turned.x) > PiDiv2 then
        Float3(if turned.x > 0.0 then MaxPitch else -MaxPitch, 0.0, 0.0)
      else turned
  }

  class Camera {
    var view: Matrix
    var projection: Matrix

    const transform: Transform

    var aspectRatio: real
    var fov: real
    var nearPlane: real
    var farPlane: real
    var movementSpeed: real
    var lookSpeed: real
    const isPerspective: bool

    /** Valid optics and speeds, a projection that matches them, a consistent transform. */
    ghost predicate Valid()
      reads this, transform
    {
      && OpticsValid(fov, nearPlane, farPlane)
      && movementSpeed >= 0.0 && lookSpeed >= 0.0
      && (isPerspective ==> projection == PerspectiveFovLH(fov, aspectRatio, nearPlane, farPlane))
      && transform.Valid()
    }

    /** The constructor takes its arguments in this order; it does not validate them. */
    constructor (rotateVector: VectorRotation, aspectRatio: real, pos: Float3,
                 rot: Float3 := DefaultRotation,
                 fov: real := DefaultFov,
                 nearPlane: real := DefaultNearPlane,
                 farPlane: real := DefaultFarPlane,
                 movementSpeed: real := DefaultMovementSpeed,
                 lookSpeed: real := DefaultLookSpeed,
                 isPerspective: bool := DefaultIsPerspective)
      requires OpticsValid(fov, nearPlane, farPlane)
      requires movementSpeed >= 0.0 && lookSpeed >= 0.0
      ensures Valid() && fresh(transform)
      ensures this.aspectRatio == aspectRatio && this.fov == fov
      ensures this.nearPlane == nearPlane && this.farPlane == farPlane
      ensures this.movementSpeed == movementSpeed && this.lookSpeed == lookSpeed
      ensures this.isPerspective == isPerspective
      ensures transform.position == pos && transform.pitchYawRoll == rot && transform.scale == One3
      ensures transform.rotateVector == rotateVector
      ensures view == LookToLH(pos, transform.Forward(), WorldUp)
    {
      this.aspectRatio := aspectRatio;
      this.fov := fov;
      this.nearPlane := nearPlane;
      this.farPlane := farPlane;
      this.movementSpeed := movementSpeed;
      this.lookSpeed := lookSpeed;
      this.isPerspective := isPerspective;
      var t := new Transform(rotateVector);
      t.SetPosition(pos);
      t.SetRotation(rot);
      transform := t;
      new;
      UpdateViewMatrix();
      UpdateProjectionMatrix(aspectRatio);
    }

    // Getters

    method GetView() returns (m: Matrix)
      ensures m == view
    {
      m := view;
    }

    method GetProjection() returns (m: Matrix)
      ensures m == projection
    {
      m := projection;
    }

    method GetTransform() returns (t: Transform)
      ensures t == transform
    {
      t := transform;
    }

    method GetFov() returns (f: real)
      ensures f == fov
    {
      f := fov;
    }

    method GetNearPlane() returns (n: real)
      ensures n == nearPlane
    {
      n := nearPlane;
    }

    method GetFarPlane() returns (f: real)
      ensures f == farPlane
    {
      f := farPlane;
    }

    method GetMovementSpeed() returns (s: real)
      ensures s == movementSpeed
    {
      s := movementSpeed;
    }

    method GetLookSpeed() returns (s: real)
      ensures s == lookSpeed
    {
      s := lookSpeed;
    }

    // Setters: an out-of-range value is ignored without any signal.

    method SetFov(fov: real)
      requires Valid()
      modifies this`fov, this`aspectRatio, this`projection
      ensures Valid()
      ensures fov <= 0.0 || fov >= Pi ==> unchanged(this)
      ensures 0.0 < fov < Pi ==> this.fov == fov && aspectRatio == old(aspectRatio)
      ensures 0.0 < fov < Pi && !isPerspective ==> projection == old(projection)
    {
      if fov <= 0.0 || fov >= Pi {
        return;
      }
      this.fov := fov;
      UpdateProjectionMatrix(aspectRatio);
    }

    method SetNearPlane(nearPlane: real)
      requires Valid()
      modifies this`nearPlane, this`aspectRatio, this`projection
      ensures Valid()
      ensures nearPlane <= 0.0 || nearPlane >= farPlane ==> unchanged(this)
      ensures 0.0 < nearPlane < farPlane ==> this.nearPlane == nearPlane && aspectRatio == old(aspectRatio)
      ensures 0.0 < nearPlane < farPlane && !isPerspective ==> projection == old(projection)
    {
      if nearPlane <= 0.0 || nearPlane >= farPlane {
        return;
      }
      this.nearPlane := nearPlane;
      UpdateProjectionMatrix(aspectRatio);
    }

    method SetFarPlane(farPlane: real)
      requires Valid()
      modifies this`farPlane, this`aspectRatio, this`projection
      ensures Valid()
      ensures farPlane >= FarPlaneLimit || farPlane <= nearPlane ==> unchanged(this)
      ensures nearPlane < farPlane < FarPlaneLimit ==> this.farPlane == farPlane && aspectRatio == old(aspectRatio)
      ensures nearPlane < farPlane < FarPlaneLimit && !isPerspective ==> projection == old(projection)
    {
      if farPlane >= FarPlaneLimit || farPlane <= nearPlane {
        return;
      }
      this.farPlane := farPlane;
      UpdateProjectionMatrix(aspectRatio);
    }

    method SetMovementSpeed(movementSpeed: real)
      requires Valid()
      modifies this`movementSpeed
      ensures Valid()
      ensures this.movementSpeed == if movementSpeed < 0.0 then old(this.movementSpeed) else movementSpeed
    {
      if movementSpeed < 0.0 {
        return;
      }
      this.movementSpeed := movementSpeed;
    }

    method SetLookSpeed(lookSpeed: real)
      requires Valid()
      modifies this`lookSpeed
      ensures Valid()
      ensures this.lookSpeed == if lookSpeed < 0.0 then old(this.lookSpeed) else lookSpeed
    {
      if lookSpeed < 0.0 {
        return;
      }
      this.lookSpeed := lookSpeed;
    }

    /** Looks from the transform's position along its forward axis, world up (0,1,0). */
    method UpdateViewMatrix()
      modifies this`view
      ensures view == LookToLH(transform.position, transform.Forward(), WorldUp)
    {
      var pos := transform.GetPosition();
      var forward := transform.Forward();
      view := LookToLH(pos, forward, WorldUp);
    }

    /** Stores the aspect ratio and rebuilds the projection, in perspective mode only. */
    method UpdateProjectionMatrix(aspectRatio: real)
      modifies this`aspectRatio, this`projection
      ensures isPerspective ==> this.aspectRatio == aspectRatio
      ensures isPerspective ==> projection == PerspectiveFovLH(fov, aspectRatio, nearPlane, farPlane)
      ensures !isPerspective ==> this.aspectRatio == old(this.aspectRatio) && projection == old(projection)
      ensures old(Valid()) ==> Valid()
    {
      if isPerspective {
        this.aspectRatio := aspectRatio;
        projection := PerspectiveFovLH(fov, aspectRatio, nearPlane, farPlane);
      }
    }

    /** One frame: keyboard moves, then mouse look with the pitch clamp, then a fresh view. */
    method Update(dt: real, input: FrameInput)
      requires Valid()
      modifies this`view, transform
      ensures Valid()
      ensures transform.position
           == KeyboardMove(old(transform.position), old(transform.pitchYawRoll), input,
                           movementSpeed, dt, transform.rotateVector)
      ensures transform.pitchYawRoll == MouseLook(old(transform.pitchYawRoll), input, lookSpeed)
      ensures transform.scale == old(transform.scale)
      ensures view == LookToLH(transform.position, transform.Forward(), WorldUp)
    {
      MoveWithKeys(dt, input);
      LookWithMouse(input);
      UpdateViewMatrix();
    }

    /** The keyboard half of Update: W/S, A/D and E move absolutely, Q relatively. */
    method MoveWithKeys(dt: real, input: FrameInput)
      requires transform.Valid()
      modifies transform`position, transform`dirty
      ensures transform.Valid()
      ensures transform.position
           == KeyboardMove(old(transform.position), transform.pitchYawRoll, input,
                           movementSpeed, dt, transform.rotateVector)
      ensures transform.Forward() == old(transform.Forward())
    {
      var step, backStep := movementSpeed * dt, -movementSpeed * dt;
      ghost var p0 := transform.position;
      // Forward and backward
      HeldMovesAbsolute(input.keyW, Float3(0.0, 0.0, step));
      ghost var p1 := transform.position;
      HeldMovesAbsolute(input.keyS, Float3(0.0, 0.0, backStep));
      ghost var p2 := transform.position;
      // Left and right
      HeldMovesAbsolute(input.keyA, Float3(backStep, 0.0, 0.0));
      ghost var p3 := transform.position;
      HeldMovesAbsolute(input.keyD, Float3(step, 0.0, 0.0));
      ghost var p4 := transform.position;
      // Up along the camera's own axis, down along the world's
      if input.keyQ { transform.MoveRelativeXYZ(0.0, step, 0.0); }
      ghost var p5 := transform.position;
      HeldMovesAbsolute(input.keyE, Float3(0.0, backStep, 0.0));
      KeyboardMoveSteps(p0, p1, p2, p3, p4, p5, transform.position, transform.pitchYawRoll, input,
                        movementSpeed, dt, transform.rotateVector);
    }

    /** One `if (key) MoveAbsolute(offset)` of the frame. */
    method HeldMovesAbsolute(held: bool, offset: Float3)
      requires transform.Valid()
      modifies transform`position, transform`dirty
      ensures transform.Valid()
      ensures transform.position == Press(old(transform.position), held, offset)
    {
      if held {
        transform.MoveAbsolute(offset);
      }
    }

    /** The mouse half of Update: turn while the left button is down, then clamp the pitch. */
    method LookWithMouse(input: FrameInput)
      requires transform.Valid()
      modifies transform`pitchYawRoll, transform`dirty
      ensures transform.Valid()
      ensures transform.pitchYawRoll == MouseLook(old(transform.pitchYawRoll), input, lookSpeed)
    {
      if input.mouseLeftDown {
        var dx := input.mouseDeltaX as real * lookSpeed;
        var dy := input.mouseDeltaY as real * lookSpeed;
        transform.RotatePYR(dy, dx, 0.0);

        var pyr := transform.GetPitchYawRoll();
        var maxXRot := PiDiv2 - 0.001;
        if Abs(pyr.x) > PiDiv2 {
          transform.SetRotationPYR(if pyr.x > 0.0 then maxXRot else -maxXRot);
        }
      }
    }
  }

  /** The default optics and speeds satisfy the setters' own rules. */
  lemma DefaultsAreValid()
    ensures OpticsValid(DefaultFov, DefaultNearPlane, DefaultFarPlane)
    ensures DefaultMovementSpeed >= 0.0 && DefaultLookSpeed >= 0.0
    ensures DefaultRotation == Zero3 && DefaultIsPerspective
  {
  }

  /** A camera built from a position alone: perspective, valid, with the default optics. */
  method DefaultCamera(rotateVector: VectorRotation, aspectRatio: real, pos: Float3) returns (c: Camera)
    ensures c.Valid() && c.isPerspective
    ensures c.aspectRatio == aspectRatio
    ensures c.projection == PerspectiveFovLH(PiDiv2, aspectRatio, 0.1, 100.0)
    ensures c.transform.pitchYawRoll == Zero3
  {
    c := new Camera(rotateVector, aspectRatio, pos);
  }

  /** 0 and pi are both refused as a field of view; pi/2 is taken. */
  method FovBoundaries(c: Camera) returns (afterZero: real, afterPi: real)
    requires c.Valid()
    modifies c
    ensures afterZero == old(c.fov) && afterPi == old(c.fov)
    ensures c.Valid() && c.fov == PiDiv2
  {
    c.SetFov(0.0);
    afterZero := c.fov;
    c.SetFov(Pi);
    afterPi := c.fov;
    c.SetFov(PiDiv2);
  }
}
