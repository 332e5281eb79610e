/** The force decomposition of `physics/src/components/force.rs`: a moment
    (a force applied at an offset from the centre of mass) split into the
    torque it exerts and the force that moves the centre of mass. */
module Forces {
  import opened Vectors

  /** A force applied at `offset` from the centre of mass. */
  datatype Moment = Moment(offset: Vec3, force: Vec3)

  /** The translational part of a moment. */
  datatype Force = Force(value: Vec3)

  /** The rotational part of a moment. */
  datatype Torque = Torque(value: Vec3)

  /** `Moment::ZERO`: no offset and no force. */
  const ZeroMoment: Moment := New(Zero, Zero)

  /** `Moment::new`: the force and where it is applied, as given. */
  function New(offset: Vec3, force: Vec3): (m: Moment)
    ensures m.offset == offset && m.force == force
  {
    Moment(offset, force)
  }

  /** A moment applied at the centre of mass, which exerts no torque. */
  function FromForce(force: Vec3): (m: Moment)
    ensures m.offset == Zero && m.force == force
    ensures GetTorque(m) == Torque(Zero)
    ensures GetForce(m) == Force(force)
  {
    New(Zero, force)
  }

  /** The translational part is the applied force, whatever the offset. */
  function GetForce(m: Moment): (f: Force)
    ensures f.value == m.force
  {
    Force(m.force)
  }

  /** The source normalises the offset (`try_normalize`, which fails only for
      the zero vector) and subtracts the projection of the force onto it
      before taking the cross product. `NormalizedProjectionIsProjection`
      shows that projecting onto the normalised offset is the rational
      projection used here. The torque is always `offset x force`: the
      subtracted radial part is parallel to the offset. */
  function GetTorque(m: Moment): (t: Torque)
    ensures t.value == Cross(m.offset, m.force)
  {
    if m.offset == Zero then
      Torque(Zero)
    else
      var radial := ProjectOnto(m.force, m.offset);
      CrossSubRight(m.offset, m.force, radial);
      Torque(Cross(m.offset, Sub(m.force, radial)))
  }

  function GetParts(m: Moment): (parts: (Torque, Force))
    ensures parts.0.value == Cross(m.offset, m.force)
    ensures parts.1.value == m.force
  {
    (GetTorque(m), GetForce(m))
  }

  /** `impl From<Moment> for Force`. */
  function ForceFrom(m: Moment): (f: Force)
    ensures f == Force(m.force)
  {
    GetForce(m)
  }

  /** `impl From<Moment> for Torque`. */
  function TorqueFrom(m: Moment): (t: Torque)
    ensures t == Torque(Cross(m.offset, m.force))
  {
    GetTorque(m)
  }

  /** The zero moment has neither torque nor force. */
  lemma ZeroMomentParts()
    ensures GetParts(ZeroMoment) == (Torque(Zero), Force(Zero))
  {
  }

  /** A zero offset or a zero force exerts no torque. */
  lemma NoOffsetOrNoForceNoTorque(offset: Vec3, force: Vec3)
    requires offset == Zero || force == Zero
    ensures GetTorque(New(offset, force)) == Torque(Zero)
  {
  }

  /** A force is radial when it equals its own projection onto the offset.
      For a non-zero offset, the torque vanishes exactly for radial forces. */
  lemma NoTorqueIffRadial(offset: Vec3, force: Vec3)
    requires offset != Zero
    ensures GetTorque(New(offset, force)) == Torque(Zero) <==> force == ProjectOnto(force, offset)
  {
    var p := ProjectOnto(force, offset);
    if Cross(offset, force) == Zero {
      TripleProduct(offset, force);
      assert Cross(Zero, offset) == Zero;
      DotSelfPositive(offset);
      var oo := Dot(offset, offset);
      var fo := Dot(force, offset);
      assert Scale(force, oo) == Scale(offset, fo);
      ScaleCancel(force, oo, 1.0 / oo);
      ScaleTwiceProduct(offset, fo, 1.0 / oo);
    }
    if force == p {
      assert Cross(offset, force) == Zero;
    }
  }

  /** Scaling the offset by `k` scales the torque by `k`. */
  lemma TorqueScalesWithOffset(offset: Vec3, force: Vec3, k: real)
    ensures GetTorque(New(Scale(offset, k), force)).value == Scale(GetTorque(New(offset, force)).value, k)
  {
    CrossScaleLeft(offset, force, k);
  }

  /** Scaling the force by `k` scales the torque by `k`. */
  lemma TorqueScalesWithForce(offset: Vec3, force: Vec3, k: real)
    ensures GetTorque(New(offset, Scale(force, k))).value == Scale(GetTorque(New(offset, force)).value, k)
  {
    CrossScaleRight(offset, force, k);
  }

  /** Forces applied at the same offset add up to the sum of their torques. */
  lemma TorqueAddsOverForces(offset: Vec3, f1: Vec3, f2: Vec3)
    ensures GetTorque(New(offset, Add(f1, f2))).value
         == Add(GetTorque(New(offset, f1)).value, GetTorque(New(offset, f2)).value)
  {
    CrossAddRight(offset, f1, f2);
  }

  /** `GetTorque`'s own ensures instantiated at a fresh moment. The unit
      cases in `UnitTorques` call it because the solver does not otherwise
      unfold `New` and `Cross` on their constant arguments within budget. */
  lemma TorqueIsCross(offset: Vec3, force: Vec3)
    ensures GetTorque(New(offset, force)) == Torque(Cross(offset, force))
  {
  }

  /** The unit cases `(Y, Z) -> X`, `(X, Y) -> Z` and `(X, Z) -> -Y`. */
  lemma UnitTorques()
    ensures GetTorque(New(Y, Z)) == Torque(X)
    ensures GetTorque(New(X, Y)) == Torque(Z)
    ensures GetTorque(New(X, Z)) == Torque(NegY)
  {
    TorqueIsCross(Y, Z);
    TorqueIsCross(X, Y);
    TorqueIsCross(X, Z);
  }

  /** A force along the offset axis exerts no torque. */
  lemma RadialAxisTorques()
    ensures GetTorque(New(X, X)) == Torque(Zero)
    ensures GetTorque(New(Y, Y)) == Torque(Zero)
    ensures GetTorque(New(Z, Z)) == Torque(Zero)
  {
  }

  /** Doubling the force or the offset doubles the torque. */
  lemma DoubledTorques()
    ensures GetTorque(New(Y, V(0.0, 0.0, 2.0))) == Torque(V(2.0, 0.0, 0.0))
    ensures GetTorque(New(V(0.0, 2.0, 0.0), Z)) == Torque(V(2.0, 0.0, 0.0))
  {
  }

  /** `Moment::new(Z, ONE).get_parts()` is `((-1, 1, 0), ONE)`. */
  lemma PartsExample()
    ensures GetParts(New(Z, One)) == (Torque(V(-1.0, 1.0, 0.0)), Force(One))
  {
  }
}
