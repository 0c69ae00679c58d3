/** Small 3- and 4-component vector algebra over exact reals, the part of the
    gl-matrix library (vec3/vec4) the geometry code relies on. Normalisation
    needs a square root, so it is never defined here: every operation that
    normalises takes the normaliser as a parameter. */
module Vectors {

  datatype Vec3 = Vec3(x: real, y: real, z: real)

  datatype Vec4 = Vec4(x: real, y: real, z: real, w: real)

  /** vec3.normalize, left abstract (it divides by a square root). */
  type Normalizer = Vec3 -> Vec3

  /** vec4.normalize, left abstract. */
  type Normalizer4 = Vec4 -> Vec4

  const Zero3 := Vec3(0.0, 0.0, 0.0)

  function Add(a: Vec3, b: Vec3): Vec3 {
    Vec3(a.x + b.x, a.y + b.y, a.z + b.z)
  }

  function Sub(a: Vec3, b: Vec3): Vec3 {
    Vec3(a.x - b.x, a.y - b.y, a.z - b.z)
  }

  function Scale(k: real, a: Vec3): Vec3 {
    Vec3(k * a.x, k * a.y, k * a.z)
  }

  function Dot(a: Vec3, b: Vec3): real {
    a.x * b.x + a.y * b.y + a.z * b.z
  }

  /** vec3.cross, component for component as gl-matrix computes it. */
  function Cross(a: Vec3, b: Vec3): Vec3 {
    Vec3(a.y * b.z - a.z * b.y, a.z * b.x - a.x * b.z, a.x * b.y - a.y * b.x)
  }

  /** Component k (0 = x, 1 = y, 2 = z). */
  function Comp(v: Vec3, k: nat): real
    requires k < 3
  {
    if k == 0 then v.x else if k == 1 then v.y else v.z
  }

  /** vec4.lerp(out, a, b, t) = a + t * (b - a). */
  function Lerp4(a: Vec4, b: Vec4, t: real): Vec4 {
    Vec4(a.x + t * (b.x - a.x), a.y + t * (b.y - a.y), a.z + t * (b.z - a.z), a.w + t * (b.w - a.w))
  }

  /** Component k of a 4-vector. */
  function Comp4(v: Vec4, k: nat): real
    requires k < 4
  {
    if k == 0 then v.x else if k == 1 then v.y else if k == 2 then v.z else v.w
  }
}
