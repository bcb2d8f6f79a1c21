/** The `cgmath` value types the program passes around, with `f32`
    components as `real`. */
module Vectors {

  datatype Vector2 = Vector2(x: real, y: real)

  datatype Vector3 = Vector3(x: real, y: real, z: real)

  datatype Vector4 = Vector4(x: real, y: real, z: real, w: real)

  /** `cgmath::Quaternion`: scalar part `s` and vector part `v`. */
  datatype Quaternion = Quaternion(s: real, v: Vector3)

  /** `Quaternion::zero()`. */
  const ZeroQuaternion: Quaternion := Quaternion(0.0, Vector3(0.0, 0.0, 0.0))
}
