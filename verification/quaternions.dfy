/** Quaternions over the reals, following glam's `Quat` with components
    `(x, y, z, w)` where `w` is the scalar part. */
module Quaternions {
  import opened Vectors

  datatype Quat = Quat(x: real, y: real, z: real, w: real)

  const Identity: Quat := Quat(0.0, 0.0, 0.0, 1.0)

  /** `Quat::from_vec4(v.extend(w))`: vector part `v`, scalar part `w`. */
  function FromVec4(v: Vec3, w: real): Quat {
    Quat(v.x, v.y, v.z, w)
  }

  /** Component-wise sum, glam's `Quat + Quat`. */
  function Add(a: Quat, b: Quat): Quat {
    Quat(a.x + b.x, a.y + b.y, a.z + b.z, a.w + b.w)
  }

  /** The Hamilton product, glam's `Quat * Quat`. */
  function Mul(a: Quat, b: Quat): Quat {
    Quat(a.w * b.x + a.x * b.w + a.y * b.z - a.z * b.y,
         a.w * b.y - a.x * b.z + a.y * b.w + a.z * b.x,
         a.w * b.z + a.x * b.y - a.y * b.x + a.z * b.w,
         a.w * b.w - a.x * b.x - a.y * b.y - a.z * b.z)
  }

  /** The identity quaternion is neutral on both sides of the product. */
  lemma MulIdentity(q: Quat)
    ensures Mul(Identity, q) == q && Mul(q, Identity) == q
  {
  }

  /** The vector part of a product of two pure quaternions is the cross
      product of their vector parts, and the scalar part is minus their dot
      product. */
  lemma MulPure(a: Vec3, b: Vec3)
    ensures Mul(FromVec4(a, 0.0), FromVec4(b, 0.0)) == FromVec4(Cross(a, b), -Dot(a, b))
  {
  }
}
