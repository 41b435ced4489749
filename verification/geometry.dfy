/** The stock Option type: None stands for a value that is not there. */
module Wrappers {
  datatype Option<T> = None | Some(value: T)
}

/**
  Plain 3D vector values, standing in for THREE.Vector3 / CANNON.Vec3.
  Coordinates are exact reals: floating-point rounding is not modelled.
 */
module Geometry {

  datatype Vec3 = Vec3(x: real, y: real, z: real)

  /** A rotation, kept opaque: the model only copies quaternions around. */
  datatype Quat = Quat(x: real, y: real, z: real, w: real)

  function Sub(a: Vec3, b: Vec3): Vec3 {
    Vec3(a.x - b.x, a.y - b.y, a.z - b.z)
  }

  /** Squared Euclidean distance. The source compares `distanceTo` values;
      since the square root is monotone, comparing squares gives the same answers. */
  function Dist2(a: Vec3, b: Vec3): (d: real)
    ensures d >= 0.0
  {
    var v := Sub(a, b);
    v.x * v.x + v.y * v.y + v.z * v.z
  }

  /** Component `axis` (0 = x, 1 = y, 2 = z) of a vector. */
  function Axis(v: Vec3, axis: nat): real
    requires axis < 3
  {
    if axis == 0 then v.x else if axis == 1 then v.y else v.z
  }
}
