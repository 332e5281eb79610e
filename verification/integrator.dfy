/** The per-tick rigid-body integrator `update_simulated` of
    `physics/src/lib.rs`: a leapfrog step (half velocity kick, drift, half
    kick) for every simulated body, with angular velocity driven by a fixed
    moment and a guarded quaternion update of the rotation. */
module Integrator {
  import opened Vectors
  import Q = Quaternions
  import opened Matrices
  import Forces
  import opened InertiaTensors
  import opened Kinematics
  import opened Wrappers
  import opened Transforms

  /** One entity as the integrator sees it: its transform, velocity, angular
      velocity, inertia, optional accelerator, and whether it carries the
      `Simulated` marker that the query filters on. */
  datatype Body = Body(
    transform: Transform,
    velocity: Vec3,
    angularVelocity: Vec3,
    inertia: Inertia,
    accelerator: Option<Accelerator>,
    simulated: bool)

  /** The torque `Z x (0, 10, 0) = (-10, 0, 0)` of the fixed moment
      `Moment::new(Z, (0, 10, 0))` that every body receives. */
  const FixedTorque: Forces.Torque := Forces.Torque(V(-10.0, 0.0, 0.0))

  /** The fixed moment yields `FixedTorque`; the force half of its parts is
      discarded. */
  lemma FixedMomentParts()
    ensures Forces.GetParts(Forces.New(Z, V(0.0, 10.0, 0.0))) == (FixedTorque, Forces.Force(V(0.0, 10.0, 0.0)))
  {
  }

  /** A missing accelerator counts as no acceleration. */
  function AcceleratorOf(b: Body): (a: Accelerator)
    ensures b.accelerator == None ==> a == NoAcceleration
    ensures b.accelerator.Some? ==> a == b.accelerator.value
  {
    if b.accelerator.Some? then b.accelerator.value else NoAcceleration
  }

  /** The angular acceleration the fixed torque gives this body. */
  function AngularAccelerationOf(b: Body): (alpha: Vec3)
    requires Invertible(b.inertia.tensor)
    ensures MulVec(b.inertia.tensor, alpha) == FixedTorque.value
  {
    GetAngularAcceleration(b.inertia, FixedTorque)
  }

  /** The rotation update: the rotation quaternion `q` moves to
      `normalize(q + normalize(dq) * q)` with `dq` built from half the
      angular displacement and `q.w * delta / 2`, but only when that scalar
      part is non-zero. `normalize` divides by a square root and is a
      parameter of the model. */
  function RotationStep(rotation: Q.Quat, angularVelocity: Vec3, delta: real, normalize: Q.Quat -> Q.Quat): (r: Q.Quat)
    ensures rotation.w == 0.0 || delta == 0.0 ==> r == rotation
    ensures rotation.w != 0.0 && delta != 0.0 ==>
      r == normalize(Q.Add(rotation, Q.Mul(normalize(Q.FromVec4(Scale(angularVelocity, delta / 2.0), rotation.w * delta / 2.0)), rotation)))
  {
    var deltaRot := Q.FromVec4(Scale(angularVelocity, delta / 2.0), HalfStep(rotation.w, delta));
    if deltaRot.w != 0.0 then normalize(Q.Add(rotation, Q.Mul(normalize(deltaRot), rotation))) else rotation
  }

  /** `x * delta / 2`, the scalar part of the rotation step. */
  function HalfStep(x: real, delta: real): real {
    x * delta / 2.0
  }

  /** The body after one tick of `delta` seconds under angular acceleration
      `alpha`, in closed form: velocity `v0 + a delta`, position
      `p0 + (v0 + a delta / 2) delta`, angular velocity `w0 + alpha delta`,
      and the rotation stepped with the angular velocity at mid-tick.
      Nothing else changes. */
  function Stepped(b: Body, alpha: Vec3, delta: real, normalize: Q.Quat -> Q.Quat): Body {
    var acc := AcceleratorOf(b);
    b.(transform := b.transform.(
         translation := Add(b.transform.translation, Scale(Accelerated(b.velocity, acc, delta / 2.0), delta)),
         rotation := RotationStep(b.transform.rotation, Add(b.angularVelocity, Scale(alpha, delta / 2.0)), delta, normalize)),
       velocity := Accelerated(b.velocity, acc, delta),
       angularVelocity := Add(b.angularVelocity, Scale(alpha, delta)))
  }

  /** One iteration of the loop body of `update_simulated`: the angular
      acceleration under the fixed moment, then the kick-drift-kick of
      `Advance`. */
  method StepBody(b: Body, delta: real, normalize: Q.Quat -> Q.Quat) returns (r: Body)
    requires Invertible(b.inertia.tensor)
    ensures r == Stepped(b, AngularAccelerationOf(b), delta, normalize)
  {
    var (torque, _) := Forces.GetParts(Forces.New(Z, V(0.0, 10.0, 0.0)));
    FixedMomentParts();
    var angacc := GetAngularAcceleration(b.inertia, torque);
    r := Advance(b, angacc, delta, normalize);
  }

  /** The rest of the loop body, statement by statement: half kick of both
      velocities, move, rotate, second half kick. The result is the
      closed-form step. */
  method Advance(b: Body, angacc: Vec3, delta: real, normalize: Q.Quat -> Q.Quat) returns (r: Body)
    ensures r == Stepped(b, angacc, delta, normalize)
  {
    var halfDelta := delta / 2.0;
    var acc := AcceleratorOf(b);

    var vel := new Velocity(b.velocity);
    vel.Accelerate(acc, halfDelta);
    var angvel := Add(b.angularVelocity, Scale(angacc, halfDelta));

    var translation := Add(b.transform.translation, Scale(vel.value, delta));
    var rotation := b.transform.rotation;
    var deltaRot := Q.FromVec4(Scale(angvel, delta / 2.0), HalfStep(rotation.w, delta));
    if deltaRot.w != 0.0 {
      rotation := normalize(Q.Add(rotation, Q.Mul(normalize(deltaRot), rotation)));
    }

    angvel := Add(angvel, Scale(angacc, halfDelta));
    vel.Accelerate(acc, halfDelta);

    r := b.(transform := b.transform.(translation := translation, rotation := rotation),
            velocity := vel.value,
            angularVelocity := angvel);
    assert halfDelta + halfDelta == delta;
    AcceleratedSplits(b.velocity, acc, halfDelta, halfDelta);
    AddScales(b.angularVelocity, angacc, halfDelta, halfDelta);
  }

  lemma AddScales(w: Vec3, alpha: Vec3, d1: real, d2: real)
    ensures Add(Add(w, Scale(alpha, d1)), Scale(alpha, d2)) == Add(w, Scale(alpha, d1 + d2))
  {
    assert alpha.x * d1 + alpha.x * d2 == alpha.x * (d1 + d2);
    assert alpha.y * d1 + alpha.y * d2 == alpha.y * (d1 + d2);
    assert alpha.z * d1 + alpha.z * d2 == alpha.z * (d1 + d2);
  }

  /** `update_simulated`: every simulated body takes one step, from its own
      fields only; every other body is left alone. */
  method UpdateSimulated(bodies: array<Body>, delta: real, normalize: Q.Quat -> Q.Quat)
    requires forall i :: 0 <= i < bodies.Length && bodies[i].simulated ==> Invertible(bodies[i].inertia.tensor)
    modifies bodies
    ensures forall i :: 0 <= i < bodies.Length ==>
      bodies[i] == if old(bodies[i]).simulated then Stepped(old(bodies[i]), AngularAccelerationOf(old(bodies[i])), delta, normalize) else old(bodies[i])
  {
    var i := 0;
    while i < bodies.Length
      invariant 0 <= i <= bodies.Length
      invariant forall j :: 0 <= j < i ==>
        bodies[j] == if old(bodies[j]).simulated then Stepped(old(bodies[j]), AngularAccelerationOf(old(bodies[j])), delta, normalize) else old(bodies[j])
      invariant forall j :: i <= j < bodies.Length ==> bodies[j] == old(bodies[j])
    {
      if bodies[i].simulated {
        var stepped := StepBody(bodies[i], delta, normalize);
        bodies[i] := stepped;
      }
      i := i + 1;
    }
  }

  /** A tick of length zero changes nothing at all. */
  lemma ZeroDeltaIsIdentity(b: Body, alpha: Vec3, normalize: Q.Quat -> Q.Quat)
    ensures Stepped(b, alpha, 0.0, normalize) == b
  {
    var acc := AcceleratorOf(b);
    AcceleratedUnchanged(b.velocity, acc, 0.0);
    assert Scale(alpha, 0.0) == Zero;
    assert Scale(Accelerated(b.velocity, acc, 0.0), 0.0) == Zero;
  }

  /** A body whose rotation has a zero scalar part never rotates: the guard
      tests `rotation.w * delta / 2`, not the angular velocity. */
  lemma ZeroScalarPartFreezesRotation(b: Body, alpha: Vec3, delta: real, normalize: Q.Quat -> Q.Quat)
    requires b.transform.rotation.w == 0.0
    ensures Stepped(b, alpha, delta, normalize).transform.rotation == b.transform.rotation
  {
  }

  /** Without an accelerator the velocity is kept and the body drifts by
      `v0 delta`, exactly as the translation-only integrator moves it. */
  lemma NoAcceleratorDrifts(b: Body, alpha: Vec3, delta: real, normalize: Q.Quat -> Q.Quat)
    requires b.accelerator == None
    ensures Stepped(b, alpha, delta, normalize).velocity == b.velocity
    ensures Stepped(b, alpha, delta, normalize).transform.translation == Add(b.transform.translation, Scale(b.velocity, delta))
  {
    AcceleratedUnchanged(b.velocity, NoAcceleration, delta);
    AcceleratedUnchanged(b.velocity, NoAcceleration, delta / 2.0);
  }

  /** `n` ticks of `delta` seconds under angular acceleration `alpha`. The
      inertia and the accelerator never change, so neither does the body's
      angular acceleration from one tick to the next. */
  function StepN(b: Body, alpha: Vec3, delta: real, n: nat, normalize: Q.Quat -> Q.Quat): (r: Body)
    decreases n
    ensures r.inertia == b.inertia && r.accelerator == b.accelerator
  {
    if n == 0 then b else StepN(Stepped(b, alpha, delta, normalize), alpha, delta, n - 1, normalize)
  }

  /** A tick changes neither the inertia nor the fixed torque, so the body's
      angular acceleration is the same before and after it. */
  lemma SteppedKeepsAngularAcceleration(b: Body, alpha: Vec3, delta: real, normalize: Q.Quat -> Q.Quat)
    requires Invertible(b.inertia.tensor)
    ensures Invertible(Stepped(b, alpha, delta, normalize).inertia.tensor)
    ensures AngularAccelerationOf(Stepped(b, alpha, delta, normalize)) == AngularAccelerationOf(b)
  {
  }

  /** `StepN` under the body's own angular acceleration is `n` calls of
      `StepBody`: its first tick is the closed form of `StepBody`, and the
      remaining ticks use the stepped body's own angular acceleration. */
  lemma StepNIsRepeatedStepBody(b: Body, delta: real, n: nat, normalize: Q.Quat -> Q.Quat)
    requires Invertible(b.inertia.tensor)
    ensures var b1 := Stepped(b, AngularAccelerationOf(b), delta, normalize);
      && Invertible(b1.inertia.tensor)
      && StepN(b, AngularAccelerationOf(b), delta, n + 1, normalize) == StepN(b1, AngularAccelerationOf(b1), delta, n, normalize)
  {
    SteppedKeepsAngularAcceleration(b, AngularAccelerationOf(b), delta, normalize);
  }

  /** Under a constant accelerator, `n` ticks of `delta` change the velocity
      by `a n delta`. */
  lemma {:induction false} StepNVelocity(b: Body, alpha: Vec3, delta: real, n: nat, normalize: Q.Quat -> Q.Quat)
    decreases n
    ensures StepN(b, alpha, delta, n, normalize).velocity == Accelerated(b.velocity, AcceleratorOf(b), n as real * delta)
  {
    if n == 0 {
      AcceleratedUnchanged(b.velocity, AcceleratorOf(b), 0.0);
    } else {
      var m: nat := n - 1;
      StepNVelocity(Stepped(b, alpha, delta, normalize), alpha, delta, m, normalize);
      VelocityStep(b, alpha, delta, n, m, normalize);
    }
  }

  /** The inductive step of `StepNVelocity`. */
  lemma VelocityStep(b: Body, alpha: Vec3, delta: real, n: nat, m: nat, normalize: Q.Quat -> Q.Quat)
    requires n == m + 1
    requires StepN(Stepped(b, alpha, delta, normalize), alpha, delta, m, normalize).velocity
          == Accelerated(Stepped(b, alpha, delta, normalize).velocity, AcceleratorOf(Stepped(b, alpha, delta, normalize)),
                         m as real * delta)
    ensures StepN(b, alpha, delta, n, normalize).velocity == Accelerated(b.velocity, AcceleratorOf(b), n as real * delta)
  {
    StepNUnfold(b, alpha, delta, n, m, normalize);
    SteppedParts(b, alpha, delta, normalize);
    VelocityTicks(b.velocity, AcceleratorOf(b), delta, n, m);
  }

  /** `n` ticks of `delta` change the angular velocity by `alpha n delta`. */
  lemma {:induction false} StepNAngularVelocity(b: Body, alpha: Vec3, delta: real, n: nat, normalize: Q.Quat -> Q.Quat)
    decreases n
    ensures StepN(b, alpha, delta, n, normalize).angularVelocity == Add(b.angularVelocity, Scale(alpha, n as real * delta))
  {
    if n == 0 {
      assert Scale(alpha, 0.0) == Zero;
    } else {
      var m: nat := n - 1;
      StepNAngularVelocity(Stepped(b, alpha, delta, normalize), alpha, delta, m, normalize);
      AngularVelocityStep(b, alpha, delta, n, m, normalize);
    }
  }

  /** The inductive step of `StepNAngularVelocity`. */
  lemma AngularVelocityStep(b: Body, alpha: Vec3, delta: real, n: nat, m: nat, normalize: Q.Quat -> Q.Quat)
    requires n == m + 1
    requires StepN(Stepped(b, alpha, delta, normalize), alpha, delta, m, normalize).angularVelocity
          == Add(Stepped(b, alpha, delta, normalize).angularVelocity, Scale(alpha, m as real * delta))
    ensures StepN(b, alpha, delta, n, normalize).angularVelocity == Add(b.angularVelocity, Scale(alpha, n as real * delta))
  {
    StepNUnfold(b, alpha, delta, n, m, normalize);
    SteppedParts(b, alpha, delta, normalize);
    AngularTicks(b.angularVelocity, alpha, delta, n, m);
  }

  /** Under a constant accelerator, `n` ticks of `delta` move the body to
      `p0 + v0 t + a t^2 / 2` with `t = n delta`: the leapfrog scheme
      integrates constant acceleration exactly. */
  lemma {:induction false} StepNTranslation(b: Body, alpha: Vec3, delta: real, n: nat, t: real, normalize: Q.Quat -> Q.Quat)
    requires t == n as real * delta
    decreases n
    ensures StepN(b, alpha, delta, n, normalize).transform.translation
         == Add(Add(b.transform.translation, Scale(b.velocity, t)), Scale(AcceleratorOf(b).value, t * t / 2.0))
  {
    if n == 0 {
      assert Scale(b.velocity, t) == Zero;
      assert Scale(AcceleratorOf(b).value, t * t / 2.0) == Zero;
    } else {
      var m: nat := n - 1;
      var t1 := m as real * delta;
      StepNTranslation(Stepped(b, alpha, delta, normalize), alpha, delta, m, t1, normalize);
      TranslationStep(b, alpha, delta, n, m, t1, t, normalize);
    }
  }

  /** The inductive step of `StepNTranslation`. */
  lemma TranslationStep(b: Body, alpha: Vec3, delta: real, n: nat, m: nat, t1: real, t: real, normalize: Q.Quat -> Q.Quat)
    requires n == m + 1 && t1 == m as real * delta && t == n as real * delta
    requires StepN(Stepped(b, alpha, delta, normalize), alpha, delta, m, normalize).transform.translation
          == Add(Add(Stepped(b, alpha, delta, normalize).transform.translation, Scale(Stepped(b, alpha, delta, normalize).velocity, t1)),
                 Scale(AcceleratorOf(Stepped(b, alpha, delta, normalize)).value, t1 * t1 / 2.0))
    ensures StepN(b, alpha, delta, n, normalize).transform.translation
         == Add(Add(b.transform.translation, Scale(b.velocity, t)), Scale(AcceleratorOf(b).value, t * t / 2.0))
  {
    StepNUnfold(b, alpha, delta, n, m, normalize);
    SteppedParts(b, alpha, delta, normalize);
    TicksAdd(n, m, delta);
    DriftComponents(b, alpha, delta, t1, t, normalize);
  }

  /** `n` ticks are one tick followed by `m = n - 1` more. */
  lemma StepNUnfold(b: Body, alpha: Vec3, delta: real, n: nat, m: nat, normalize: Q.Quat -> Q.Quat)
    requires n == m + 1
    ensures StepN(b, alpha, delta, n, normalize) == StepN(Stepped(b, alpha, delta, normalize), alpha, delta, m, normalize)
  {
  }

  /** A velocity kick of `delta` followed by `m` more is `n = m + 1` kicks. */
  lemma VelocityTicks(v: Vec3, acc: Accelerator, delta: real, n: nat, m: nat)
    requires n == m + 1
    ensures Accelerated(Add(v, Scale(acc.value, delta)), acc, m as real * delta) == Accelerated(v, acc, n as real * delta)
  {
    TicksAdd(n, m, delta);
    AcceleratedSplits(v, acc, delta, m as real * delta);
  }

  /** An angular kick of `delta` followed by `m` more is `n = m + 1` kicks. */
  lemma AngularTicks(w: Vec3, alpha: Vec3, delta: real, n: nat, m: nat)
    requires n == m + 1
    ensures Add(Add(w, Scale(alpha, delta)), Scale(alpha, m as real * delta)) == Add(w, Scale(alpha, n as real * delta))
  {
    TicksAdd(n, m, delta);
    AddScales(w, alpha, delta, m as real * delta);
  }

  lemma TicksAdd(n: nat, m: nat, delta: real)
    requires n == m + 1
    ensures n as real * delta == delta + m as real * delta
  {
  }

  /** The position step of `StepNTranslation`: one tick followed by the
      closed form over `t1` is the closed form over `t = delta + t1`. */
  lemma DriftComponents(b: Body, alpha: Vec3, delta: real, t1: real, t: real, normalize: Q.Quat -> Q.Quat)
    requires t == delta + t1
    ensures var b1, a := Stepped(b, alpha, delta, normalize), AcceleratorOf(b).value;
      Add(Add(b1.transform.translation, Scale(b1.velocity, t1)), Scale(a, t1 * t1 / 2.0))
      == Add(Add(b.transform.translation, Scale(b.velocity, t)), Scale(a, t * t / 2.0))
  {
    SteppedParts(b, alpha, delta, normalize);
    DriftVec(b.transform.translation, b.velocity, AcceleratorOf(b).value, delta, t1, t);
  }

  /** What one tick does to the translation, the velocity and the angular
      velocity, and that it keeps the accelerator. */
  lemma SteppedParts(b: Body, alpha: Vec3, delta: real, normalize: Q.Quat -> Q.Quat)
    ensures Stepped(b, alpha, delta, normalize).transform.translation
         == Add(b.transform.translation, Scale(Add(b.velocity, Scale(AcceleratorOf(b).value, delta / 2.0)), delta))
    ensures Stepped(b, alpha, delta, normalize).velocity == Add(b.velocity, Scale(AcceleratorOf(b).value, delta))
    ensures Stepped(b, alpha, delta, normalize).angularVelocity == Add(b.angularVelocity, Scale(alpha, delta))
    ensures AcceleratorOf(Stepped(b, alpha, delta, normalize)) == AcceleratorOf(b)
  {
  }

  /** The drift of `StepNTranslation` on vectors: a tick of `d` from
      `(p, v)` followed by the closed form over `t1` is the closed form over
      `t = d + t1`. */
  lemma DriftVec(p: Vec3, v: Vec3, a: Vec3, d: real, t1: real, t: real)
    requires t == d + t1
    ensures Add(Add(Add(p, Scale(Add(v, Scale(a, d / 2.0)), d)), Scale(Add(v, Scale(a, d)), t1)), Scale(a, t1 * t1 / 2.0))
         == Add(Add(p, Scale(v, t)), Scale(a, t * t / 2.0))
  {
    var p1, v1 := Add(p, Scale(Add(v, Scale(a, d / 2.0)), d)), Add(v, Scale(a, d));
    ClosedFormEntries(p1, v1, a, t1);
    ClosedFormEntries(p, v, a, t);
    Drift(p, v, a, d, p1, v1, t1, t);
    Link(Add(Add(p1, Scale(v1, t1)), Scale(a, t1 * t1 / 2.0)),
           V(p1.x + v1.x * t1 + a.x * (t1 * t1 / 2.0), p1.y + v1.y * t1 + a.y * (t1 * t1 / 2.0), p1.z + v1.z * t1 + a.z * (t1 * t1 / 2.0)),
           V(p.x + v.x * t + a.x * (t * t / 2.0), p.y + v.y * t + a.y * (t * t / 2.0), p.z + v.z * t + a.z * (t * t / 2.0)),
           Add(Add(p, Scale(v, t)), Scale(a, t * t / 2.0)));
  }

  /** One tick's drift and kick, coordinate by coordinate. */
  lemma TickEntries(p: Vec3, v: Vec3, a: Vec3, d: real)
    ensures Add(p, Scale(Add(v, Scale(a, d / 2.0)), d))
         == V(p.x + (v.x + a.x * (d / 2.0)) * d, p.y + (v.y + a.y * (d / 2.0)) * d, p.z + (v.z + a.z * (d / 2.0)) * d)
    ensures Add(v, Scale(a, d)) == V(v.x + a.x * d, v.y + a.y * d, v.z + a.z * d)
  {
    ScaleComponents(a, d / 2.0);
    AddOf(v, a.x * (d / 2.0), a.y * (d / 2.0), a.z * (d / 2.0));
    ScaleOf(v.x + a.x * (d / 2.0), v.y + a.y * (d / 2.0), v.z + a.z * (d / 2.0), d);
    AddOf(p, (v.x + a.x * (d / 2.0)) * d, (v.y + a.y * (d / 2.0)) * d, (v.z + a.z * (d / 2.0)) * d);
    ScaleComponents(a, d);
    AddOf(v, a.x * d, a.y * d, a.z * d);
  }

  /** The closed form `p + v t + a t^2 / 2`, coordinate by coordinate. */
  lemma ClosedFormEntries(p: Vec3, v: Vec3, a: Vec3, t: real)
    ensures Add(Add(p, Scale(v, t)), Scale(a, t * t / 2.0))
         == V(p.x + v.x * t + a.x * (t * t / 2.0), p.y + v.y * t + a.y * (t * t / 2.0), p.z + v.z * t + a.z * (t * t / 2.0))
  {
    ScaleComponents(v, t);
    AddOf(p, v.x * t, v.y * t, v.z * t);
    ScaleComponents(a, t * t / 2.0);
    AddEntries(p.x + v.x * t, p.y + v.y * t, p.z + v.z * t, a.x * (t * t / 2.0), a.y * (t * t / 2.0), a.z * (t * t / 2.0));
  }

  /** Position `p`, velocity `v` and acceleration `a` become `p1` and `v1`
      after a tick of `d`; the closed form over the remaining `t1` agrees
      with the closed form over `t = d + t1`, in every coordinate. */
  lemma Drift(p: Vec3, v: Vec3, a: Vec3, d: real, p1: Vec3, v1: Vec3, t1: real, t: real)
    requires p1 == Add(p, Scale(Add(v, Scale(a, d / 2.0)), d))
    requires v1 == Add(v, Scale(a, d))
    requires t == d + t1
    ensures V(p1.x + v1.x * t1 + a.x * (t1 * t1 / 2.0),
              p1.y + v1.y * t1 + a.y * (t1 * t1 / 2.0),
              p1.z + v1.z * t1 + a.z * (t1 * t1 / 2.0))
         == V(p.x + v.x * t + a.x * (t * t / 2.0), p.y + v.y * t + a.y * (t * t / 2.0), p.z + v.z * t + a.z * (t * t / 2.0))
  {
    TickEntries(p, v, a, d);
    DriftCoordinate(p.x, v.x, a.x, d, p1.x, v1.x, t1, t);
    DriftCoordinate(p.y, v.y, a.y, d, p1.y, v1.y, t1, t);
    DriftCoordinate(p.z, v.z, a.z, d, p1.z, v1.z, t1, t);
  }

  /** The drift in one coordinate: expanding `(d + t1)^2` shows that the
      half-step position update is exact for constant acceleration. */
  lemma DriftCoordinate(p: real, v: real, a: real, d: real, p1: real, v1: real, t1: real, t: real)
    requires p1 == p + (v + a * (d / 2.0)) * d
    requires v1 == v + a * d
    requires t == d + t1
    ensures p1 + v1 * t1 + a * (t1 * t1 / 2.0) == p + v * t + a * (t * t / 2.0)
  {
  }

  /** `n` ticks of `T / n` change the velocity by exactly `a T`. */
  lemma SubdividedTicks(b: Body, alpha: Vec3, total: real, n: nat, normalize: Q.Quat -> Q.Quat)
    requires n > 0
    ensures StepN(b, alpha, total / n as real, n, normalize).velocity == Accelerated(b.velocity, AcceleratorOf(b), total)
  {
    DivideMultiply(total, n as real);
    VelocityAfter(b, alpha, total / n as real, n, total, normalize);
  }

  /** `StepNVelocity` for ticks that add up to `total`. */
  lemma VelocityAfter(b: Body, alpha: Vec3, delta: real, n: nat, total: real, normalize: Q.Quat -> Q.Quat)
    requires n as real * delta == total
    ensures StepN(b, alpha, delta, n, normalize).velocity == Accelerated(b.velocity, AcceleratorOf(b), total)
  {
    StepNVelocity(b, alpha, delta, n, normalize);
  }

  lemma DivideMultiply(total: real, k: real)
    requires k != 0.0
    ensures k * (total / k) == total
  {
  }
}
