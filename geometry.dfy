/** Vectors, quaternions and the frame transforms the plugin applies to them.
    The transforms belong to a math library outside this model, so they are
    carried as opaque function values: contracts can only say which transform
    is applied to which input, never what it computes. */
module Geometry {

  /** A 3-vector (Eigen::Vector3d), exact reals instead of doubles. */
  datatype Vec3 = Vec3(x: real, y: real, z: real) {

    /** Component-wise scaling, as `v * k` and `v *= k` on an Eigen vector. */
    function Scale(k: real): Vec3
    {
      Vec3(x * k, y * k, z * k)
    }
  }

  /** The value `setZero` leaves in a vector. */
  const Zero := Vec3(0.0, 0.0, 0.0)

  /** A quaternion in Eigen's (w, x, y, z) constructor order. */
  datatype Quat = Quat(w: real, x: real, y: real, z: real)

  /** The frame-transform library as the plugin sees it. */
  datatype FrameTransforms = FrameTransforms(
    /** ftf::quaternion_from_rpy */
    quaternionFromRpy: (real, real, real) -> Quat,
    /** ftf::transform_orientation_ned_enu: NED world to ENU world */
    orientationNedEnu: Quat -> Quat,
    /** ftf::transform_orientation_aircraft_baselink: aircraft body to base_link body */
    orientationAircraftBaselink: Quat -> Quat,
    /** ftf::transform_frame_aircraft_baselink on vectors */
    frameAircraftBaselink: Vec3 -> Vec3)
  {
    /** An aircraft->NED orientation re-expressed as base_link->ENU: the world
        remap is applied first and the body remap second. */
    function EnuBaselinkOrientation(q: Quat): Quat
    {
      orientationAircraftBaselink(orientationNedEnu(q))
    }
  }
}
