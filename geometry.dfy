/** The part of the host's vector type (`mathutils.Vector`) the placement
    arithmetic uses, over exact reals. The square root is a parameter
    wherever a length is taken. */
module Geometry {

  datatype Vec3 = Vec3(x: real, y: real, z: real)

  /** A rotation as (w, x, y, z); only stored and compared here. */
  datatype Quaternion = Quaternion(w: real, x: real, y: real, z: real)

  /** The two values of an object's `rotation_mode` the importers see: the
      default Euler order of a new object and the quaternion mode they set. */
  datatype RotationMode = XYZ | QUATERNION

  function Add(a: Vec3, b: Vec3): Vec3 {
    Vec3(a.x + b.x, a.y + b.y, a.z + b.z)
  }

  function Sub(a: Vec3, b: Vec3): Vec3 {
    Vec3(a.x - b.x, a.y - b.y, a.z - b.z)
  }

  /** `s * v` */
  function Times(s: real, v: Vec3): Vec3 {
    Vec3(s * v.x, s * v.y, s * v.z)
  }

  /** Component-wise product. */
  function Hadamard(a: Vec3, b: Vec3): Vec3 {
    Vec3(a.x * b.x, a.y * b.y, a.z * b.z)
  }

  function Dot(a: Vec3, b: Vec3): real {
    a.x * b.x + a.y * b.y + a.z * b.z
  }

  /** Component `k` (0 = x, 1 = y, 2 = z). */
  function Component(v: Vec3, k: nat): real
    requires k < 3
  {
    if k == 0 then v.x else if k == 1 then v.y else v.z
  }

  /** `a.lerp(b, t)`, which the host computes as `a * (1 - t) + b * t`. */
  function Lerp(a: Vec3, b: Vec3, t: real): (r: Vec3)
    ensures t == 0.0 ==> r == a
    ensures t == 1.0 ==> r == b
  {
    Add(Times(1.0 - t, a), Times(t, b))
  }

  /** Interpolating half-way gives the midpoint, equally far from both ends. */
  lemma LerpHalfIsMidpoint(a: Vec3, b: Vec3)
    ensures Lerp(a, b, 0.5) == Vec3((a.x + b.x) / 2.0, (a.y + b.y) / 2.0, (a.z + b.z) / 2.0)
    ensures Sub(Lerp(a, b, 0.5), a) == Sub(b, Lerp(a, b, 0.5))
  {
  }

  /** `v.length`, the Euclidean norm, with the host's square root. The
      square root is only ever taken of a sum of squares, so a length never
      raises a domain error. */
  function Length(v: Vec3, sqrt: real -> real): (r: real)
    ensures 0.0 <= v.x * v.x + v.y * v.y + v.z * v.z && r == sqrt(v.x * v.x + v.y * v.y + v.z * v.z)
  {
    assert Dot(v, v) == v.x * v.x + v.y * v.y + v.z * v.z;
    sqrt(Dot(v, v))
  }

  const UnitX := Vec3(1.0, 0.0, 0.0)
  const UnitY := Vec3(0.0, 1.0, 0.0)
  const UnitZ := Vec3(0.0, 0.0, 1.0)
  const Ones := Vec3(1.0, 1.0, 1.0)
}
