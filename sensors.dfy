/** One reading of a three-axis sensor (accelerometer or gyroscope), as an `{x, y, z}` record. */
module Sensors {

  datatype Vec3 = Vec3(x: real, y: real, z: real)

  /** The all-zero reading substituted for a missing one. */
  const Zero: Vec3 := Vec3(0.0, 0.0, 0.0)

  /** Absolute value. */
  function Abs(v: real): (r: real)
    ensures r >= 0.0 && (r == v || r == -v)
  {
    if v < 0.0 then -v else v
  }

  /** Axis 0, 1, 2 is x, y, z. */
  function Axis(v: Vec3, i: nat): real
    requires i < 3
  {
    if i == 0 then v.x else if i == 1 then v.y else v.z
  }
}
