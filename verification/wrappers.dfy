/** Option and Result values used wherever the engine may leave a value
    unset (a null pointer, an uninitialised field) or may fail. */
module Wrappers {

  datatype Option<+T> = None | Some(value: T) {
    function GetOr(default: T): T {
      match this
      case Some(v) => v
      case None => default
    }
  }

  /** An operation that either yields a value or hits a fault the source
      does not guard against (a null dereference, an out-of-range iterator). */
  datatype Result<+T, +E> = Ok(value: T) | Err(error: E)
}

/** Plain value types standing in for glm vectors. */
module Vectors {

  datatype Vec2 = Vec2(x: real, y: real)
  datatype Vec3 = Vec3(x: real, y: real, z: real)
  datatype Vec4 = Vec4(x: real, y: real, z: real, w: real)

  const Zero3: Vec3 := Vec3(0.0, 0.0, 0.0)
  const One3: Vec3 := Vec3(1.0, 1.0, 1.0)

  /** glm::vec3(s): every component equal to s. */
  function Splat(s: real): (v: Vec3)
    ensures v.x == s && v.y == s && v.z == s
  {
    Vec3(s, s, s)
  }
}
