/** The inertia tensor of `physics/src/inertia.rs`: closed-form tensors of
    solid cylinders and the angular acceleration a torque produces. */
module InertiaTensors {
  import opened Vectors
  import opened Matrices
  import Forces

  /** A body's inertia tensor. */
  datatype Inertia = Inertia(tensor: Mat3)

  /** `m r^2 / 2`: a cylinder's moment about its own axis. */
  function FrontMoment(radius: real, mass: real): real {
    mass * Square(radius) / 2.0
  }

  /** `m h^2 / 12 + m r^2 / 4`: a cylinder's moment about an axis through its
      centre perpendicular to its own. */
  function SideMoment(height: real, radius: real, mass: real): real {
    mass * Square(height) / 12.0 + mass * Square(radius) / 4.0
  }

  /** A cylinder whose height runs along the x axis. */
  function CylinderX(height: real, radius: real, mass: real): (c: Inertia)
    ensures c.tensor == Diagonal(FrontMoment(radius, mass), SideMoment(height, radius, mass), SideMoment(height, radius, mass))
    ensures mass > 0.0 && radius != 0.0 ==> Invertible(c.tensor)
  {
    var side := SideMoment(height, radius, mass);
    var front := FrontMoment(radius, mass);
    if mass > 0.0 && radius != 0.0 then
      CylinderMomentsPositive(height, radius, mass);
      DiagonalInvertible(front, side, side);
      Inertia(Diagonal(front, side, side))
    else
      Inertia(Diagonal(front, side, side))
  }

  /** A cylinder whose height runs along the y axis. */
  function CylinderY(height: real, radius: real, mass: real): (c: Inertia)
    ensures c.tensor == Diagonal(SideMoment(height, radius, mass), FrontMoment(radius, mass), SideMoment(height, radius, mass))
    ensures mass > 0.0 && radius != 0.0 ==> Invertible(c.tensor)
  {
    var side := SideMoment(height, radius, mass);
    var front := FrontMoment(radius, mass);
    if mass > 0.0 && radius != 0.0 then
      CylinderMomentsPositive(height, radius, mass);
      DiagonalInvertible(side, front, side);
      Inertia(Diagonal(side, front, side))
    else
      Inertia(Diagonal(side, front, side))
  }

  /** A cylinder whose height runs along the z axis. */
  function CylinderZ(height: real, radius: real, mass: real): (c: Inertia)
    ensures c.tensor == Diagonal(SideMoment(height, radius, mass), SideMoment(height, radius, mass), FrontMoment(radius, mass))
    ensures mass > 0.0 && radius != 0.0 ==> Invertible(c.tensor)
  {
    var side := SideMoment(height, radius, mass);
    var front := FrontMoment(radius, mass);
    if mass > 0.0 && radius != 0.0 then
      CylinderMomentsPositive(height, radius, mass);
      DiagonalInvertible(side, side, front);
      Inertia(Diagonal(side, side, front))
    else
      Inertia(Diagonal(side, side, front))
  }

  /** `inverse().mul_vec3(torque)`: the angular acceleration `a` with
      `I a == torque`. glam yields non-finite values for a singular tensor,
      which real arithmetic cannot express, so the tensor must be
      invertible. */
  function GetAngularAcceleration(inertia: Inertia, torque: Forces.Torque): (a: Vec3)
    requires Invertible(inertia.tensor)
    ensures MulVec(inertia.tensor, a) == torque.value
  {
    MulInverse(inertia.tensor, torque.value);
    MulVec(Inverse(inertia.tensor), torque.value)
  }

  /** The angular acceleration is the only vector that the tensor maps to the
      torque. */
  lemma AngularAccelerationUnique(inertia: Inertia, torque: Forces.Torque, a: Vec3)
    requires Invertible(inertia.tensor)
    ensures GetAngularAcceleration(inertia, torque) == a <==> MulVec(inertia.tensor, a) == torque.value
  {
    if MulVec(inertia.tensor, a) == torque.value {
      InverseMul(inertia.tensor, a);
    }
  }

  /** The angular acceleration is additive in the torque. */
  lemma AngularAccelerationAdditive(inertia: Inertia, t1: Vec3, t2: Vec3)
    requires Invertible(inertia.tensor)
    ensures GetAngularAcceleration(inertia, Forces.Torque(Add(t1, t2)))
         == Add(GetAngularAcceleration(inertia, Forces.Torque(t1)), GetAngularAcceleration(inertia, Forces.Torque(t2)))
  {
    var a1 := GetAngularAcceleration(inertia, Forces.Torque(t1));
    var a2 := GetAngularAcceleration(inertia, Forces.Torque(t2));
    MulVecAdd(inertia.tensor, a1, a2);
    AngularAccelerationUnique(inertia, Forces.Torque(Add(t1, t2)), Add(a1, a2));
  }

  /** The angular acceleration scales with the torque. */
  lemma AngularAccelerationHomogeneous(inertia: Inertia, t: Vec3, k: real)
    requires Invertible(inertia.tensor)
    ensures GetAngularAcceleration(inertia, Forces.Torque(Scale(t, k)))
         == Scale(GetAngularAcceleration(inertia, Forces.Torque(t)), k)
  {
    var a := GetAngularAcceleration(inertia, Forces.Torque(t));
    MulVecScale(inertia.tensor, a, k);
    AngularAccelerationUnique(inertia, Forces.Torque(Scale(t, k)), Scale(a, k));
  }

  /** A diagonal tensor with non-zero entries is invertible, and each
      component of the angular acceleration is the torque component divided by
      the matching diagonal entry. */
  lemma DiagonalAngularAcceleration(a: real, b: real, c: real, t: Vec3)
    requires a != 0.0 && b != 0.0 && c != 0.0
    ensures Invertible(Diagonal(a, b, c))
    ensures GetAngularAcceleration(Inertia(Diagonal(a, b, c)), Forces.Torque(t)) == V(t.x / a, t.y / b, t.z / c)
  {
    DiagonalInvertible(a, b, c);
    var alpha := V(t.x / a, t.y / b, t.z / c);
    DiagonalMulVec(a, b, c, alpha);
    DivideBack(a, t.x);
    DivideBack(b, t.y);
    DivideBack(c, t.z);
    SameEntries(a * (t.x / a), b * (t.y / b), c * (t.z / c), t.x, t.y, t.z);
    Link(MulVec(Diagonal(a, b, c), alpha), V(a * (t.x / a), b * (t.y / b), c * (t.z / c)), V(t.x, t.y, t.z), t);
    AngularAccelerationUnique(Inertia(Diagonal(a, b, c)), Forces.Torque(t), alpha);
  }

  /** A diagonal tensor with non-zero entries is invertible. */
  lemma DiagonalInvertible(a: real, b: real, c: real)
    requires a != 0.0 && b != 0.0 && c != 0.0
    ensures Invertible(Diagonal(a, b, c))
  {
    DiagonalDeterminant(a, b, c);
    NonZeroProduct(a, b);
    NonZeroProduct(c, a * b);
  }

  lemma DivideBack(a: real, x: real)
    requires a != 0.0
    ensures a * (x / a) == x
  {
  }

  lemma NonZeroProduct(a: real, b: real)
    requires a != 0.0 && b != 0.0
    ensures a * b != 0.0
  {
  }

  /** For positive mass and non-zero radius both cylinder moments are
      positive, whatever the height. */
  lemma CylinderMomentsPositive(height: real, radius: real, mass: real)
    requires mass > 0.0 && radius != 0.0
    ensures FrontMoment(radius, mass) > 0.0
    ensures SideMoment(height, radius, mass) > 0.0
  {
    SquarePositive(radius);
    SquareNonNegative(height);
    ProductPositive(mass, Square(radius));
    ProductNonNegative(mass, Square(height));
  }

  lemma ProductNonNegative(a: real, b: real)
    requires a >= 0.0 && b >= 0.0
    ensures a * b >= 0.0
  {
  }

  /** Every cylinder tensor with positive mass and non-zero radius is
      invertible; its angular acceleration divides the torque about the
      cylinder's axis by the front moment and the other components by the
      side moment. */
  lemma CylinderAngularAcceleration(height: real, radius: real, mass: real, t: Vec3)
    requires mass > 0.0 && radius != 0.0
    ensures Invertible(CylinderX(height, radius, mass).tensor)
    ensures Invertible(CylinderY(height, radius, mass).tensor)
    ensures Invertible(CylinderZ(height, radius, mass).tensor)
    ensures var f, s := FrontMoment(radius, mass), SideMoment(height, radius, mass);
      && GetAngularAcceleration(CylinderX(height, radius, mass), Forces.Torque(t)) == V(t.x / f, t.y / s, t.z / s)
      && GetAngularAcceleration(CylinderY(height, radius, mass), Forces.Torque(t)) == V(t.x / s, t.y / f, t.z / s)
      && GetAngularAcceleration(CylinderZ(height, radius, mass), Forces.Torque(t)) == V(t.x / s, t.y / s, t.z / f)
  {
    var f, s := FrontMoment(radius, mass), SideMoment(height, radius, mass);
    CylinderMomentsPositive(height, radius, mass);
    DiagonalAngularAcceleration(f, s, s, t);
    DiagonalAngularAcceleration(s, f, s, t);
    DiagonalAngularAcceleration(s, s, f, t);
  }

  /** The y and z cylinders are the x cylinder with its axis entry moved to
      the y or z slot; every off-diagonal entry is zero. */
  lemma CylinderAxesPermute(height: real, radius: real, mass: real)
    ensures var x := CylinderX(height, radius, mass).tensor;
      && x == Diagonal(x.xAxis.x, x.yAxis.y, x.yAxis.y)
      && CylinderY(height, radius, mass).tensor == Diagonal(x.yAxis.y, x.xAxis.x, x.yAxis.y)
      && CylinderZ(height, radius, mass).tensor == Diagonal(x.yAxis.y, x.yAxis.y, x.xAxis.x)
  {
  }

  /** A thin cylinder of height 4, radius 0.5 and mass 20. */
  lemma ThinCylinder()
    ensures CylinderX(4.0, 0.5, 20.0).tensor == Diagonal(5.0 / 2.0, 335.0 / 12.0, 335.0 / 12.0)
    ensures CylinderY(4.0, 0.5, 20.0).tensor == Diagonal(335.0 / 12.0, 5.0 / 2.0, 335.0 / 12.0)
    ensures CylinderZ(4.0, 0.5, 20.0).tensor == Diagonal(335.0 / 12.0, 335.0 / 12.0, 5.0 / 2.0)
  {
  }

  /** The unit cylinder: height, radius and mass 1. */
  lemma UnitCylinder()
    ensures CylinderX(1.0, 1.0, 1.0).tensor == Diagonal(1.0 / 2.0, 1.0 / 3.0, 1.0 / 3.0)
    ensures CylinderY(1.0, 1.0, 1.0).tensor == Diagonal(1.0 / 3.0, 1.0 / 2.0, 1.0 / 3.0)
    ensures CylinderZ(1.0, 1.0, 1.0).tensor == Diagonal(1.0 / 3.0, 1.0 / 3.0, 1.0 / 2.0)
  {
  }
}
