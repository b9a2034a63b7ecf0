/** Rigid poses: rotation by a quaternion (x, y, z, w) followed by a translation. */
module Poses {
  import opened Voxels

  datatype Quat = Quat(x: real, y: real, z: real, w: real)

  datatype Pose = Pose(translation: Vec, rotation: Quat)
}
