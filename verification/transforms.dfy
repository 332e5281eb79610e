/** The parts of Bevy's `Transform` component that the simulators touch. */
module Transforms {
  import opened Vectors
  import Quaternions

  datatype Transform = Transform(translation: Vec3, rotation: Quaternions.Quat, scale: Vec3)
}
