/** The older force decomposition of `physics/src/force.rs`. Its `get_parts`
    returns the torque and the residual: the projection of the force onto
    the offset, the part that pushes along the offset axis. */
module LegacyForces {
  import opened Vectors
  import Forces

  /** A force `magnitude` applied at `offset` from the centre of mass. */
  datatype Moment = Moment(offset: Vec3, magnitude: Vec3)

  /** `Moment::new`: the force and where it is applied, as given. */
  function New(offset: Vec3, magnitude: Vec3): (m: Moment)
    ensures m.offset == offset && m.magnitude == magnitude
  {
    Moment(offset, magnitude)
  }

  /** Returns `(torque, residual)`. With a zero offset there is nothing to
      project onto and the whole force is the residual. Otherwise the
      residual is parallel to the offset, the rest of the force is
      perpendicular to it, and the torque is `offset x force`. */
  function GetParts(m: Moment): (parts: (Vec3, Vec3))
    ensures parts.0 == Cross(m.offset, m.magnitude)
    ensures m.offset == Zero ==> parts.1 == m.magnitude
    ensures m.offset != Zero ==> Cross(m.offset, parts.1) == Zero
    ensures m.offset != Zero ==> Dot(Sub(m.magnitude, parts.1), m.offset) == 0.0
  {
    if m.offset == Zero then
      (Zero, m.magnitude)
    else
      var res := ProjectOnto(m.magnitude, m.offset);
      CrossSubRight(m.offset, m.magnitude, res);
      var torq := Cross(m.offset, Sub(m.magnitude, res));
      (torq, res)
  }

  /** The residual: the whole force for a zero offset, otherwise the part of
      the force along the offset, leaving a perpendicular remainder. */
  function GetResidual(m: Moment): (r: Vec3)
    ensures m.offset == Zero ==> r == m.magnitude
    ensures m.offset != Zero ==> Cross(m.offset, r) == Zero && Dot(Sub(m.magnitude, r), m.offset) == 0.0
  {
    GetParts(m).1
  }

  function GetTorque(m: Moment): (t: Vec3)
    ensures t == Cross(m.offset, m.magnitude)
  {
    GetParts(m).0
  }

  /** The two conditions in `GetResidual`'s contract pin the residual down:
      it is the projection of the force onto the offset. */
  lemma ResidualIsProjection(offset: Vec3, magnitude: Vec3, r: Vec3)
    requires offset != Zero
    requires Cross(offset, r) == Zero && Dot(Sub(magnitude, r), offset) == 0.0
    ensures r == ProjectOnto(magnitude, offset)
    ensures GetResidual(New(offset, magnitude)) == r
  {
    ParallelIsScaled(offset, r);
    // `r . offset == magnitude . offset` because the remainder is perpendicular.
    DotSub(magnitude, r, offset);
    ScaleBy(offset, Dot(r, offset) * (1.0 / Dot(offset, offset)), Dot(magnitude, offset) * (1.0 / Dot(offset, offset)));
    ProjectOntoIs(magnitude, offset);
    Link(r, Scale(offset, Dot(r, offset) * (1.0 / Dot(offset, offset))),
         Scale(offset, Dot(magnitude, offset) * (1.0 / Dot(offset, offset))), ProjectOnto(magnitude, offset));
  }

  /** A vector parallel to a non-zero offset is the offset scaled by
      `(r . offset) / (offset . offset)`. */
  lemma ParallelIsScaled(offset: Vec3, r: Vec3)
    requires offset != Zero
    requires Cross(offset, r) == Zero
    ensures Dot(offset, offset) > 0.0
    ensures r == Scale(offset, Dot(r, offset) * (1.0 / Dot(offset, offset)))
  {
    DotSelfPositive(offset);
    var oo := Dot(offset, offset);
    TripleProduct(offset, r);
    assert Cross(Zero, offset) == Zero;
    assert Scale(r, oo) == Scale(offset, Dot(r, offset));
    Reciprocal(oo);
    ScaleCancel(r, oo, 1.0 / oo);
    ScaleTwiceProduct(offset, Dot(r, offset), 1.0 / oo);
  }

  /** A force along its own offset is entirely residual, for every vector,
      the zero vector included. */
  lemma ResidualOfSelf(v: Vec3)
    ensures GetResidual(New(v, v)) == v
  {
    if v != Zero {
      CrossScaledSelf(v, 1.0);
      assert Scale(v, 1.0) == v;
      assert Sub(v, v) == Zero;
      ResidualIsProjection(v, v, v);
    }
  }

  /** With no offset the force is all residual and there is no torque. */
  lemma ZeroOffsetParts(magnitude: Vec3)
    ensures GetParts(New(Zero, magnitude)) == (Zero, magnitude)
  {
  }

  /** `Moment::new(X, ONE)` has residual `(1, 0, 0)`. */
  lemma ResidualExample()
    ensures GetResidual(New(X, One)) == X
  {
    assert Cross(X, X) == Zero;
    assert Dot(Sub(One, X), X) == 0.0;
    ResidualIsProjection(X, One, X);
  }

  /** The unit torques `(Y, Z) -> X`, `(X, Y) -> Z` and `(X, Z) -> -Y`. */
  lemma UnitTorques()
    ensures GetTorque(New(Y, Z)) == X
    ensures GetTorque(New(X, Y)) == Z
    ensures GetTorque(New(X, Z)) == NegY
  {
    TorqueIsCross(Y, Z);
    TorqueIsCross(X, Y);
    TorqueIsCross(X, Z);
  }

  /** `GetTorque`'s own ensures instantiated at a fresh moment. The unit
      cases in `UnitTorques` call it because the solver does not otherwise
      unfold `New` and `Cross` on their constant arguments within budget. */
  lemma TorqueIsCross(offset: Vec3, magnitude: Vec3)
    ensures GetTorque(New(offset, magnitude)) == Cross(offset, magnitude)
  {
  }

  /** Both versions compute the same torque. */
  lemma TorqueAgrees(offset: Vec3, force: Vec3)
    ensures GetTorque(New(offset, force)) == Forces.GetTorque(Forces.New(offset, force)).value
  {
  }

  /** They disagree on the second part: the newer version returns the whole
      force, this one only its radial part. The two coincide exactly when
      the offset is zero or the force exerts no torque. */
  lemma SecondPartAgreesIffNoTorque(offset: Vec3, force: Vec3)
    ensures GetResidual(New(offset, force)) == Forces.GetForce(Forces.New(offset, force)).value
        <==> offset == Zero || Cross(offset, force) == Zero
  {
    if offset != Zero {
      Forces.NoTorqueIffRadial(offset, force);
      if Cross(offset, force) == Zero {
        ResidualIsProjection(offset, force, ProjectOnto(force, offset));
      }
    }
  }
}
