/**
 * Transform: position, pitch/yaw/roll and scale of one object, with a world
 * matrix and its inverse-transpose cached behind a single dirty flag.
 *
 * Every mutator overwrites, adds to or multiplies one of the three vectors
 * and sets the flag; reading a matrix recomputes both cached matrices only
 * when the flag is set, and clears it.
 */
module Transforms {
  import opened DxMath

  /** CalculateWorldMatrix's composition: scale, then rotate, then translate. */
  function WorldOf(position: Float3, pitchYawRoll: Float3, scale: Float3): Matrix
  {
    MatrixMultiply(MatrixMultiply(Scaling(scale), RotationRollPitchYaw(pitchYawRoll)), Translation(position))
  }

  /** The matrix used for normals: the inverse of the transposed world matrix. */
  function InverseTransposeOf(world: Matrix): Matrix
  {
    Inverse(Transpose(world))
  }

  class Transform {
    var position: Float3
    var pitchYawRoll: Float3
    var scale: Float3

    var world: Matrix
    var worldInverseTranspose: Matrix
    var dirty: bool

    /** How a vector is turned by the current orientation (see DxMath.VectorRotation). */
    const rotateVector: VectorRotation

    /** Whenever the flag is clear, both cached matrices describe the current vectors. */
    ghost predicate Valid()
      reads this
    {
      !dirty ==>
        && world == WorldOf(position, pitchYawRoll, scale)
        && worldInverseTranspose == InverseTransposeOf(world)
    }

    constructor (rotateVector: VectorRotation)
      ensures Valid()
      ensures position == Zero3 && pitchYawRoll == Zero3 && scale == One3
      ensures dirty && world == Identity && worldInverseTranspose == Identity
      ensures this.rotateVector == rotateVector
    {
      position := Zero3;
      pitchYawRoll := Zero3;
      scale := One3;
      dirty := true;
      world := Identity;
      worldInverseTranspose := Identity;
      this.rotateVector := rotateVector;
    }

    // Setters

    method SetPosition(position: Float3)
      modifies this`position, this`dirty
      ensures Valid() && dirty
      ensures this.position == position
      ensures pitchYawRoll == old(pitchYawRoll) && scale == old(scale)
    {
      this.position := position;
      dirty := true;
    }

    method SetPositionXYZ(x: real := 0.0, y: real := 0.0, z: real := 0.0)
      modifies this`position, this`dirty
      ensures Valid() && dirty
      ensures position == Float3(x, y, z)
      ensures pitchYawRoll == old(pitchYawRoll) && scale == old(scale)
    {
      SetPosition(Float3(x, y, z));
    }

    method SetRotation(rotation: Float3)
      modifies this`pitchYawRoll, this`dirty
      ensures Valid() && dirty
      ensures pitchYawRoll == rotation
      ensures position == old(position) && scale == old(scale)
    {
      pitchYawRoll := rotation;
      dirty := true;
    }

    method SetRotationPYR(pitch: real := 0.0, yaw: real := 0.0, roll: real := 0.0)
      modifies this`pitchYawRoll, this`dirty
      ensures Valid() && dirty
      ensures pitchYawRoll == Float3(pitch, yaw, roll)
      ensures position == old(position) && scale == old(scale)
    {
      SetRotation(Float3(pitch, yaw, roll));
    }

    method SetScale(scale: Float3)
      modifies this`scale, this`dirty
      ensures Valid() && dirty
      ensures this.scale == scale
      ensures position == old(position) && pitchYawRoll == old(pitchYawRoll)
    {
      this.scale := scale;
      dirty := true;
    }

    method SetScaleXYZ(x: real := 1.0, y: real := 1.0, z: real := 1.0)
      modifies this`scale, this`dirty
      ensures Valid() && dirty
      ensures scale == Float3(x, y, z)
      ensures position == old(position) && pitchYawRoll == old(pitchYawRoll)
    {
      SetScale(Float3(x, y, z));
    }

    // Getters

    method GetPosition() returns (p: Float3)
      ensures p == position
    {
      p := position;
    }

    method GetPitchYawRoll() returns (r: Float3)
      ensures r == pitchYawRoll
    {
      r := pitchYawRoll;
    }

    method GetScale() returns (s: Float3)
      ensures s == scale
    {
      s := scale;
    }

    /** The forward axis (0,0,1) turned by the current orientation. */
    function Forward(): Float3
      reads this
    {
      rotateVector(pitchYawRoll, LocalForward)
    }

    method GetWorldMatrix() returns (m: Matrix)
      requires Valid()
      modifies this`world, this`worldInverseTranspose, this`dirty
      ensures Valid() && !dirty
      ensures m == world == WorldOf(position, pitchYawRoll, scale)
      ensures !old(dirty) ==> world == old(world) && worldInverseTranspose == old(worldInverseTranspose)
    {
      if dirty {
        CalculateWorldMatrix();
      }
      m := world;
    }

    method GetWorldInverseTransposeMatrix() returns (m: Matrix)
      requires Valid()
      modifies this`world, this`worldInverseTranspose, this`dirty
      ensures Valid() && !dirty
      ensures world == WorldOf(position, pitchYawRoll, scale)
      ensures m == worldInverseTranspose == InverseTransposeOf(world)
      ensures !old(dirty) ==> world == old(world) && worldInverseTranspose == old(worldInverseTranspose)
    {
      if dirty {
        CalculateWorldMatrix();
      }
      m := worldInverseTranspose;
    }

    // Transformers

    method MoveAbsolute(offset: Float3)
      modifies this`position, this`dirty
      ensures Valid() && dirty
      ensures position == VectorAdd(old(position), offset)
      ensures pitchYawRoll == old(pitchYawRoll) && scale == old(scale)
    {
      position := VectorAdd(position, offset);
      dirty := true;
    }

    method MoveAbsoluteXYZ(x: real := 0.0, y: real := 0.0, z: real := 0.0)
      modifies this`position, this`dirty
      ensures Valid() && dirty
      ensures position == VectorAdd(old(position), Float3(x, y, z))
      ensures pitchYawRoll == old(pitchYawRoll) && scale == old(scale)
    {
      MoveAbsolute(Float3(x, y, z));
    }

    /** Moves along the offset turned by the current orientation. */
    method MoveRelative(offset: Float3)
      modifies this`position, this`dirty
      ensures Valid() && dirty
      ensures position == VectorAdd(old(position), rotateVector(pitchYawRoll, offset))
      ensures pitchYawRoll == old(pitchYawRoll) && scale == old(scale)
    {
      position := VectorAdd(position, rotateVector(pitchYawRoll, offset));
      dirty := true;
    }

    method MoveRelativeXYZ(x: real := 0.0, y: real := 0.0, z: real := 0.0)
      modifies this`position, this`dirty
      ensures Valid() && dirty
      ensures position == VectorAdd(old(position), rotateVector(pitchYawRoll, Float3(x, y, z)))
      ensures pitchYawRoll == old(pitchYawRoll) && scale == old(scale)
    {
      MoveRelative(Float3(x, y, z));
    }

    /** Adds to pitch, yaw and roll; angles are never wrapped. */
    method Rotate(rotation: Float3)
      modifies this`pitchYawRoll, this`dirty
      ensures Valid() && dirty
      ensures pitchYawRoll == VectorAdd(old(pitchYawRoll), rotation)
      ensures position == old(position) && scale == old(scale)
    {
      pitchYawRoll := VectorAdd(pitchYawRoll, rotation);
      dirty := true;
    }

    method RotatePYR(pitch: real := 0.0, yaw: real := 0.0, roll: real := 0.0)
      modifies this`pitchYawRoll, this`dirty
      ensures Valid() && dirty
      ensures pitchYawRoll == VectorAdd(old(pitchYawRoll), Float3(pitch, yaw, roll))
      ensures position == old(position) && scale == old(scale)
    {
      Rotate(Float3(pitch, yaw, roll));
    }

    /** Multiplies the scale component-wise. */
    method Scale(factors: Float3)
      modifies this`scale, this`dirty
      ensures Valid() && dirty
      ensures scale == VectorMultiply(old(scale), factors)
      ensures position == old(position) && pitchYawRoll == old(pitchYawRoll)
    {
      scale := VectorMultiply(scale, factors);
      dirty := true;
    }

    method ScaleXYZ(x: real := 1.0, y: real := 1.0, z: real := 1.0)
      modifies this`scale, this`dirty
      ensures Valid() && dirty
      ensures scale == VectorMultiply(old(scale), Float3(x, y, z))
      ensures position == old(position) && pitchYawRoll == old(pitchYawRoll)
    {
      Scale(Float3(x, y, z));
    }

    /** Rebuilds both cached matrices from the current vectors and clears the flag. */
    method CalculateWorldMatrix()
      modifies this`world, this`worldInverseTranspose, this`dirty
      ensures Valid() && !dirty
      ensures world == WorldOf(position, pitchYawRoll, scale)
      ensures worldInverseTranspose == InverseTransposeOf(world)
    {
      var t := Translation(position);
      var r := RotationRollPitchYaw(pitchYawRoll);
      var s := Scaling(scale);
      var w := MatrixMultiply(MatrixMultiply(s, r), t);
      world := w;
      worldInverseTranspose := Inverse(Transpose(w));
      dirty := false;
    }
  }

  // What callers can rely on, stated through the contracts above alone.

  /** The argument-less setters return a transform to the identity pose. */
  method ResetWithDefaults(t: Transform)
    modifies t
    ensures t.Valid() && t.dirty
    ensures t.position == Zero3 && t.pitchYawRoll == Zero3 && t.scale == One3
  {
    t.SetPositionXYZ();
    t.SetRotationPYR();
    t.SetScaleXYZ();
  }

  /** Omitting yaw and roll sets both to zero. */
  method SetPitchOnly(t: Transform, pitch: real)
    modifies t
    ensures t.Valid() && t.dirty
    ensures t.pitchYawRoll == Float3(pitch, 0.0, 0.0)
    ensures t.position == old(t.position) && t.scale == old(t.scale)
  {
    t.SetRotationPYR(pitch);
  }

  /** The argument-less movers change nothing but the flag. */
  method NeutralDefaults(t: Transform)
    modifies t
    ensures t.Valid() && t.dirty
    ensures t.position == old(t.position) && t.pitchYawRoll == old(t.pitchYawRoll) && t.scale == old(t.scale)
  {
    t.MoveAbsoluteXYZ();
    t.RotatePYR();
    t.ScaleXYZ();
  }

  /** Rotating by pi twice accumulates 2 pi of pitch: nothing wraps. */
  method RotateByPiTwice(t: Transform)
    modifies t
    ensures t.pitchYawRoll == VectorAdd(old(t.pitchYawRoll), Float3(2.0 * Pi, 0.0, 0.0))
  {
    t.RotatePYR(Pi, 0.0, 0.0);
    t.RotatePYR(Pi, 0.0, 0.0);
  }

  /** Scaling by a and then by b is scaling by the component-wise product a*b. */
  method ScaleTwice(t: Transform, a: Float3, b: Float3)
    modifies t
    ensures t.scale == VectorMultiply(old(t.scale), VectorMultiply(a, b))
  {
    t.Scale(a);
    t.Scale(b);
  }

  /**
   * Two reads with no mutation in between see the same matrix, and it is
   * the composition of the vectors as they stand, however many mutations
   * came before.
   */
  method ReadWorldTwice(t: Transform) returns (first: Matrix, second: Matrix)
    requires t.Valid()
    modifies t
    ensures first == second == WorldOf(t.position, t.pitchYawRoll, t.scale)
    ensures t.position == old(t.position) && t.pitchYawRoll == old(t.pitchYawRoll) && t.scale == old(t.scale)
  {
    first := t.GetWorldMatrix();
    second := t.GetWorldMatrix();
  }
}
