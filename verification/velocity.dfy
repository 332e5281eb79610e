/** Velocities and constant accelerations from
    `physics/src/components/velocity.rs` and
    `physics/src/components/acceleration.rs`. */
module Kinematics {
  import opened Vectors

  /** A constant acceleration in global coordinates. */
  datatype Accelerator = Accelerator(value: Vec3)

  /** `Accelerator::ZERO`, used for bodies that carry no accelerator. */
  const NoAcceleration: Accelerator := Accelerator(Zero)

  /** `Accelerator::gravity()`: 9.82 downwards along y. */
  function Gravity(): (a: Accelerator)
    ensures a.value == V(0.0, -9.82, 0.0)
  {
    Accelerator(Scale(NegY, 9.82))
  }

  /** The velocity after accelerating `v` with `acc` for `delta` seconds. */
  function Accelerated(v: Vec3, acc: Accelerator, delta: real): (r: Vec3)
    ensures Sub(r, v) == Scale(acc.value, delta)
  {
    Add(v, Scale(acc.value, delta))
  }

  /** A translational velocity in global coordinates, updated in place. */
  class Velocity {
    var value: Vec3

    constructor (value: Vec3)
      ensures this.value == value
    {
      this.value := value;
    }

    /** `self.0 += acc.0 * delta`; only this velocity changes. */
    method Accelerate(acc: Accelerator, delta: real)
      modifies this
      ensures value == Accelerated(old(value), acc, delta)
    {
      value := Add(value, Scale(acc.value, delta));
    }
  }

  /** Accelerating for `d1` and then for `d2` is accelerating for `d1 + d2`;
      in particular two half steps make one whole step, which is what the
      integrator relies on when it kicks half before and half after the move. */
  lemma AcceleratedSplits(v: Vec3, acc: Accelerator, d1: real, d2: real)
    ensures Accelerated(Accelerated(v, acc, d1), acc, d2) == Accelerated(v, acc, d1 + d2)
  {
    var a := acc.value;
    assert a.x * d1 + a.x * d2 == a.x * (d1 + d2);
    assert a.y * d1 + a.y * d2 == a.y * (d1 + d2);
    assert a.z * d1 + a.z * d2 == a.z * (d1 + d2);
  }

  /** Accelerating backwards for the same time undoes an acceleration. */
  lemma AcceleratedUndone(v: Vec3, acc: Accelerator, delta: real)
    ensures Accelerated(Accelerated(v, acc, delta), acc, -delta) == v
  {
    AcceleratedSplits(v, acc, delta, -delta);
    AcceleratedUnchanged(v, acc, 0.0);
  }

  /** No time or no acceleration leaves the velocity as it was. */
  lemma AcceleratedUnchanged(v: Vec3, acc: Accelerator, delta: real)
    requires delta == 0.0 || acc.value == Zero
    ensures Accelerated(v, acc, delta) == v
  {
  }

  /** Accelerating from rest with `ONE` for 5 seconds gives `(5, 5, 5)`. */
  lemma AccelerateExample()
    ensures Accelerated(Zero, Accelerator(One), 5.0) == V(5.0, 5.0, 5.0)
  {
  }
}
