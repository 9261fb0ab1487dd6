/**
 * The slice of DirectXMath that Transform, Camera and the mesh loader use.
 *
 * Vectors are triples of reals (XMFLOAT3) and pairs of reals (XMFLOAT2).
 * Matrices (XMFLOAT4X4) are kept symbolic: every matrix builder is a
 * constructor of a free term algebra, so no law of matrix arithmetic is
 * assumed and two matrices are equal only when they were built by the same
 * calls from the same arguments.
 */
module DxMath {

  datatype Float3 = Float3(x: real, y: real, z: real)

  datatype Float2 = Float2(x: real, y: real)

  const Zero3 := Float3(0.0, 0.0, 0.0)
  const One3 := Float3(1.0, 1.0, 1.0)

  /** XM_PI and XM_PIDIV2, as DirectXMath spells them out. */
  const Pi: real := 3.141592654
  const PiDiv2: real := 1.570796327

  /** XMVectorAdd on the x, y and z lanes. */
  function VectorAdd(a: Float3, b: Float3): Float3
  {
    Float3(a.x + b.x, a.y + b.y, a.z + b.z)
  }

  /** XMVectorMultiply on the x, y and z lanes (component-wise, not a dot product). */
  function VectorMultiply(a: Float3, b: Float3): Float3
  {
    Float3(a.x * b.x, a.y * b.y, a.z * b.z)
  }

  /**
   * The matrices the core builds, as uninterpreted terms:
   * XMMatrixIdentity, XMMatrixTranslationFromVector,
   * XMMatrixRotationRollPitchYawFromVector, XMMatrixScalingFromVector,
   * XMMatrixMultiply, XMMatrixTranspose, XMMatrixInverse, XMMatrixLookToLH and
   * XMMatrixPerspectiveFovLH.
   */
  datatype Matrix =
    | Identity
    | Translation(offset: Float3)
    | RotationRollPitchYaw(angles: Float3)
    | Scaling(factors: Float3)
    | MatrixMultiply(left: Matrix, right: Matrix)
    | Transpose(m: Matrix)
    | Inverse(m: Matrix)
    | LookToLH(eye: Float3, direction: Float3, up: Float3)
    | PerspectiveFovLH(fovAngleY: real, aspectRatio: real, nearZ: real, farZ: real)

  /**
   * Rotating a vector by the orientation that a pitch/yaw/roll triple
   * describes (XMVector3Rotate by XMQuaternionRotationRollPitchYawFromVector):
   * the first argument is pitch/yaw/roll, the second the vector to rotate.
   * The trigonometry is not modelled; the rotation is a parameter.
   */
  type VectorRotation = (Float3, Float3) -> Float3

  /** The world up vector the camera looks with. */
  const WorldUp := Float3(0.0, 1.0, 0.0)

  /** The local forward axis that GetForward rotates. */
  const LocalForward := Float3(0.0, 0.0, 1.0)
}
