/** Unity's Vector3 and Vector4 value types over exact reals. */
module Vectors {

  datatype Vec3 = Vec3(x: real, y: real, z: real)

  /** A tangent: xyz is the direction, w the handedness (binormal sign). */
  datatype Vec4 = Vec4(x: real, y: real, z: real, w: real)

  const Zero: Vec3 := Vec3(0.0, 0.0, 0.0)

  /** Componentwise sum, Unity's `Vector3 + Vector3`. */
  function Add(a: Vec3, b: Vec3): Vec3 {
    Vec3(a.x + b.x, a.y + b.y, a.z + b.z)
  }

  function Scale(v: Vec3, k: real): Vec3 {
    Vec3(k * v.x, k * v.y, k * v.z)
  }

  function Dot(a: Vec3, b: Vec3): real {
    a.x * b.x + a.y * b.y + a.z * b.z
  }

  /** Unity's `sqrMagnitude`. */
  function SqrMagnitude(v: Vec3): real {
    Dot(v, v)
  }

  /** The explicit `(Vector3)` conversion of a Vector4: drops w. */
  function Xyz(t: Vec4): Vec3 {
    Vec3(t.x, t.y, t.z)
  }

  /** `new Vector4(v.x, v.y, v.z, w)`. */
  function WithW(v: Vec3, w: real): Vec4 {
    Vec4(v.x, v.y, v.z, w)
  }

  lemma SqrMagnitudeOfScale(v: Vec3, k: real)
    ensures SqrMagnitude(Scale(v, k)) == k * k * SqrMagnitude(v)
  {
  }
}
