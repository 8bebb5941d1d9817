/// Vector and vertex values shared by the terrain, mesh and glTF models.
/// Single-precision floats are modelled as `real`; rounding is not modelled.
module Geometry {

  /** glm::vec3 */
  datatype Vec3 = Vec3(x: real, y: real, z: real)

  /** glm::vec2 */
  datatype Vec2 = Vec2(u: real, v: real)

  /** glm::quat, in glm's constructor order (w, x, y, z). */
  datatype Quat = Quat(w: real, x: real, y: real, z: real)

  /** The vertex record of VBO.h: position, normal, color, texture coordinate and the cached height. */
  datatype Vertex = Vertex(position: Vec3, normal: Vec3, color: Vec3, textureUV: Vec2, height: real)

  const Zero3: Vec3 := Vec3(0.0, 0.0, 0.0)
  const One3: Vec3 := Vec3(1.0, 1.0, 1.0)
  const Zero2: Vec2 := Vec2(0.0, 0.0)

  function Add(a: Vec3, b: Vec3): Vec3 {
    Vec3(a.x + b.x, a.y + b.y, a.z + b.z)
  }

  function Sub(a: Vec3, b: Vec3): Vec3 {
    Vec3(a.x - b.x, a.y - b.y, a.z - b.z)
  }

  /** glm::cross */
  function Cross(a: Vec3, b: Vec3): Vec3 {
    Vec3(a.y * b.z - a.z * b.y, a.z * b.x - a.x * b.z, a.x * b.y - a.y * b.x)
  }

  /** A 4x4 transform matrix (glm::mat4). Its entries are not modelled. */
  type Mat4(==, !new)

  /**
   * The glm matrix operations the source uses, as uninterpreted functions:
   * the identity `glm::mat4(1.0f)`, `operator*`, `glm::translate(m, v)`,
   * `glm::mat4_cast(q)`, `glm::scale(m, v)` and `glm::make_mat4` over the 16
   * column-major entries of a glTF node matrix.
   */
  datatype MatOps = MatOps(
    identity: Mat4,
    mul: (Mat4, Mat4) -> Mat4,
    translate: (Mat4, Vec3) -> Mat4,
    fromQuat: Quat -> Mat4,
    scale: (Mat4, Vec3) -> Mat4,
    fromArray: seq<real> -> Mat4)
}
