/** Vectors, poses and triangles shared by the tessellators and the STL writer.

    Coordinates are reals: the exporter computes in single-precision floats,
    and rounding is not part of this model. */
module Geometry {

  /** A point or direction in space (PhysX's `PxVec3`). */
  datatype Vec3 = Vec3(x: real, y: real, z: real)

  function Add(a: Vec3, b: Vec3): Vec3 {
    Vec3(a.x + b.x, a.y + b.y, a.z + b.z)
  }

  function Sub(a: Vec3, b: Vec3): Vec3 {
    Vec3(a.x - b.x, a.y - b.y, a.z - b.z)
  }

  function Scale(k: real, a: Vec3): Vec3 {
    Vec3(k * a.x, k * a.y, k * a.z)
  }

  /** Component-wise product: what a diagonal scale matrix does to a point. */
  function Mul(a: Vec3, b: Vec3): Vec3 {
    Vec3(a.x * b.x, a.y * b.y, a.z * b.z)
  }

  function Dot(a: Vec3, b: Vec3): real {
    a.x * b.x + a.y * b.y + a.z * b.z
  }

  function Cross(a: Vec3, b: Vec3): Vec3 {
    Vec3(a.y * b.z - a.z * b.y, a.z * b.x - a.x * b.z, a.x * b.y - a.y * b.x)
  }

  /** `(a + b + c) / 3`, the normal averaging the sphere tessellator uses. */
  function Mean3(a: Vec3, b: Vec3, c: Vec3): (m: Vec3)
    ensures 3.0 * m.x == a.x + b.x + c.x
    ensures 3.0 * m.y == a.y + b.y + c.y
    ensures 3.0 * m.z == a.z + b.z + c.z
  {
    Scale(1.0 / 3.0, Add(Add(a, b), c))
  }

  /** A rigid transform (`PxTransform`): a rotation, kept opaque, and a translation. */
  datatype Pose = Pose(rotate: Vec3 -> Vec3, p: Vec3)

  /** The pose does not rotate: its rotation leaves every vector where it is. */
  ghost predicate Unrotated(pose: Pose) {
    forall v :: pose.rotate(v) == v
  }

  /** A pose built from the identity lambda is unrotated. */
  lemma IdentityPoseIsUnrotated(p: Vec3)
    ensures Unrotated(Pose(v => v, p))
  {
  }

  /** The model matrix `PxMat44(pose) * PxMat44(diag(scale, 1))` applied to the point
      `v`: scale first, then rotate, then translate. */
  function ModelPoint(pose: Pose, scale: Vec3, v: Vec3): (w: Vec3)
    ensures Unrotated(pose) ==> Sub(w, pose.p) == Mul(scale, v)
  {
    Add(pose.rotate(Mul(scale, v)), pose.p)
  }

  /** One facet: a flat normal and three vertices in the order they are written. */
  datatype Triangle = Triangle(normal: Vec3, v0: Vec3, v1: Vec3, v2: Vec3)
}
