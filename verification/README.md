# Rigid-body physics core, modelled in Dafny

This project models the physics core of a small Bevy-based rigid-body simulator:

- **Forces.** A force applied at an offset from the centre of mass (a *moment*) is split into a torque and a translational force. The model covers both versions of this split in the repository: the current one in `physics/src/components/force.rs` and the older one in `physics/src/force.rs`.
- **Inertia.** Cylinder inertia tensors and the angular acceleration that a torque produces (`physics/src/inertia.rs`).
- **Velocity.** Accelerating a velocity (`physics/src/components/velocity.rs`) and the gravity accelerator (`physics/src/components/acceleration.rs`).
- **Leapfrog integrator.** `update_simulated` in `physics/src/lib.rs` does a half-step velocity update, moves and rotates the body, then does the second half-step.
- **Translation-only integrator.** The earlier `update` in `src/sim/simulation.rs`.
- **Orbit camera.** The yaw/pitch update and the angle wrapping in `src/camera.rs`.

Every `f32` is an exact `real`. The glam types the code relies on are modelled as plain datatypes following glam's definitions:

- `Vec3` becomes `Vectors.Vec3`.
- `Mat3` becomes `Matrices.Mat3`. It is stored by columns. As in glam, its inverse transposes the matrix whose columns are the cofactor vectors `y × z`, `z × x` and `x × y`; that transpose is the adjugate, so the inverse is the adjugate divided by the determinant.
- `Quat` becomes `Quaternions.Quat`, with glam's Hamilton product.

Files:

- `vectors.dfy`, `matrices.dfy` and `quaternions.dfy` hold the algebra.
- `forces.dfy`, `legacy_forces.dfy`, `inertia.dfy` and `velocity.dfy` mirror the physics crate's modules.
- `integrator.dfy` is `update_simulated`.
- `simulation.dfy` is the translation-only `update`.
- `camera.dfy` is the camera.
- `wrappers.dfy` and `transforms.dfy` hold the `Option` type and Bevy's `Transform`.

Modelling decisions:

- **Projection without a square root.** The torque code normalises the offset and projects the force onto the unit vector (`try_normalize`, `project_onto_normalized`). The model uses the rational projection `(f·o / o·o) o`, guarded by `o ≠ 0`. `Vectors.NormalizedProjectionIsProjection` proves the two agree whenever some `len > 0` has `len² = o·o`.
- **Quaternion normalisation.** The integrator's quaternion `normalize` needs a square root. It is a function parameter `normalize`, so every property about the rotation holds whatever normalisation is used. The rotation guard follows the code (`rotation.w · delta / 2 != 0`, `physics/src/lib.rs:61`). That guard tests the body's current scalar part, not the angular velocity: a body whose rotation has `w = 0` never turns (`Integrator.ZeroScalarPartFreezesRotation`).
- **Bodies as records.** In `update_simulated`, each queried entity is a `Body` record and the query is an array that `Integrator.UpdateSimulated` updates in place. `Integrator.StepBody` mirrors the statements of one loop iteration, and `Integrator.Stepped` is its closed form. `Kinematics.Velocity` is a class because `accelerate` mutates the component. The integrator calls its `Accelerate` method twice, as the source does.
- **Camera state.** `update_camera` mutates the camera state in place, so `Camera.OrbitState` is a class.
- **The two force modules disagree.** `components/force.rs` returns the whole applied force as the translational part. `force.rs` returns only the component along the offset. `LegacyForces.SecondPartAgreesIffNoTorque` proves that the two agree exactly when the force exerts no torque.

## Model

| member | source | states |
|---|---|---|
| Vectors.ProjectOnto | physics/src/force.rs:49 | the projection of `v` onto a non-zero `onto` is parallel to `onto`, and what remains of `v` is perpendicular to it |
| Vectors.NormalizedProjectionIsProjection | physics/src/components/force.rs:66-69 | normalising the offset and projecting onto the unit vector gives the same vector as the rational projection onto the offset, for any positive length whose square is `o·o` |
| Matrices.MulInverse | physics/src/inertia.rs:66 | multiplying the tensor by `inverse() * t` gives back `t` when the determinant is non-zero |
| Matrices.InverseMul | physics/src/inertia.rs:66 | the inverse undoes the tensor: `inverse() * (m * a) == a` when the determinant is non-zero |
| Quaternions.MulIdentity | physics/src/lib.rs:62 | the identity quaternion is neutral on both sides of the Hamilton product used in the rotation update |
| Quaternions.MulPure | physics/src/lib.rs:62 | the product of two pure quaternions has vector part `a × b` and scalar part `-(a·b)` |
| Forces.New | physics/src/components/force.rs:28-30 | the moment holds the given offset and force |
| Forces.FromForce | physics/src/components/force.rs:32-37 | a moment built from a force alone has a zero offset and that force, exerts no torque, and its translational part is that force |
| Forces.GetForce | physics/src/components/force.rs:50-52 | the translational part is the applied force, whatever the offset |
| Forces.GetTorque | physics/src/components/force.rs:65-75 | the torque (zero for a zero offset, otherwise the offset crossed with the non-radial remainder) equals `offset × force` |
| Forces.GetParts | physics/src/components/force.rs:91-93 | the pair is (`offset × force`, the applied force) |
| Forces.ForceFrom | physics/src/components/force.rs:96-100 | converting a moment to a `Force` gives its applied force |
| Forces.TorqueFrom | physics/src/components/force.rs:102-106 | converting a moment to a `Torque` gives `offset × force` |
| Forces.ZeroMomentParts | physics/src/components/force.rs:23 | `Moment::ZERO` has zero torque and zero force |
| Forces.NoOffsetOrNoForceNoTorque | physics/src/components/force.rs:119-121 | a zero offset or a zero force gives zero torque |
| Forces.NoTorqueIffRadial | physics/src/components/force.rs:123-126 | for a non-zero offset, the torque is zero exactly when the force equals its own projection onto the offset (both directions) |
| Forces.TorqueScalesWithOffset | physics/src/components/force.rs:133-135 | scaling the offset by any `k` scales the torque by `k` |
| Forces.TorqueScalesWithForce | physics/src/components/force.rs:133-135 | scaling the force by any `k` scales the torque by `k` |
| Forces.TorqueAddsOverForces | physics/src/components/force.rs:65-75 | forces at the same offset produce the sum of their torques |
| Forces.UnitTorques | physics/src/components/force.rs:128-131 | `(Y, Z) → X`, `(X, Y) → Z`, `(X, Z) → -Y` |
| Forces.RadialAxisTorques | physics/src/components/force.rs:123-126 | a unit force along its own unit offset exerts no torque |
| Forces.DoubledTorques | physics/src/components/force.rs:133-135 | doubling the force or the offset in `(Y, Z)` gives torque `2X` |
| Forces.PartsExample | physics/src/components/force.rs:82-87 | `Moment::new(Z, ONE).get_parts()` is `((-1, 1, 0), ONE)` |
| LegacyForces.New | physics/src/force.rs:13-15 | the moment holds the given offset and magnitude |
| LegacyForces.GetParts | physics/src/force.rs:45-55 | the torque is `offset × magnitude`; for a zero offset the second part is the whole force; otherwise it is parallel to the offset and the force minus it is perpendicular to the offset |
| LegacyForces.GetResidual | physics/src/force.rs:27-29 | the residual is the whole force for a zero offset, otherwise the component of the force along the offset |
| LegacyForces.GetTorque | physics/src/force.rs:41-43 | the torque is `offset × magnitude` |
| LegacyForces.ResidualIsProjection | physics/src/force.rs:45-55 | the parallel/perpendicular conditions determine the residual uniquely: any vector meeting them is the projection, and it is what `get_residual` returns |
| LegacyForces.ResidualOfSelf | physics/src/force.rs:77-78 | a force applied along its own offset is entirely residual, for every vector, not only the seven the test lists |
| LegacyForces.ZeroOffsetParts | physics/src/force.rs:74-75 | with no offset the parts are zero torque and the whole force |
| LegacyForces.ResidualExample | physics/src/force.rs:81-82 | `Moment::new(X, ONE)` has residual `(1, 0, 0)` |
| LegacyForces.UnitTorques | physics/src/force.rs:86-90 | `(Y, Z) → X`, `(X, Y) → Z`, `(X, Z) → -Y` |
| LegacyForces.TorqueAgrees | physics/src/force.rs:50 | the older and the newer module compute the same torque for every moment |
| LegacyForces.SecondPartAgreesIffNoTorque | physics/src/force.rs:49-52 | the older residual equals the newer translational force exactly when the moment exerts no torque |
| InertiaTensors.CylinderX | physics/src/inertia.rs:17-30 | the tensor is diagonal with the front moment `m r²/2` on the x axis and the side moment `m h²/12 + m r²/4` on the other two; it is invertible for positive mass and non-zero radius |
| InertiaTensors.CylinderY | physics/src/inertia.rs:33-46 | the same moments with the front moment on the y axis; invertible for positive mass and non-zero radius |
| InertiaTensors.CylinderZ | physics/src/inertia.rs:49-62 | the same moments with the front moment on the z axis; invertible for positive mass and non-zero radius |
| InertiaTensors.GetAngularAcceleration | physics/src/inertia.rs:65-67 | for an invertible tensor, the result `a` satisfies `tensor · a == torque` |
| InertiaTensors.AngularAccelerationUnique | physics/src/inertia.rs:65-67 | the result is the only vector that the tensor maps onto the torque (both directions) |
| InertiaTensors.AngularAccelerationAdditive | physics/src/inertia.rs:65-67 | the angular acceleration of a sum of torques is the sum of their angular accelerations |
| InertiaTensors.AngularAccelerationHomogeneous | physics/src/inertia.rs:65-67 | scaling the torque by `k` scales the angular acceleration by `k` |
| InertiaTensors.DiagonalAngularAcceleration | physics/src/inertia.rs:65-67 | for a diagonal tensor with non-zero entries `(a, b, c)`, the result is `(t.x/a, t.y/b, t.z/c)` |
| InertiaTensors.CylinderMomentsPositive | physics/src/inertia.rs:22-23 | with positive mass and non-zero radius, the front and side moments are both positive |
| InertiaTensors.CylinderAngularAcceleration | physics/src/inertia.rs:17-62 | with positive mass and non-zero radius, all three cylinders are invertible; the torque component along the axis is divided by the front moment and the others by the side moment |
| InertiaTensors.CylinderAxesPermute | physics/src/inertia.rs:17-62 | the three cylinders put the same two moments on the diagonal, with the front moment on the axis |
| InertiaTensors.ThinCylinder | physics/src/inertia.rs:79-105 | height 4, radius 0.5, mass 20 give front moment 5/2 and side moment 335/12 on each axis |
| InertiaTensors.UnitCylinder | physics/src/inertia.rs:115-151 | unit height, radius and mass give front moment 1/2 and side moment 1/3 on each axis |
| Kinematics.Gravity | physics/src/components/acceleration.rs:22-24 | gravity is `(0, -9.82, 0)` |
| Kinematics.Accelerated | physics/src/components/velocity.rs:37-39 | the velocity changes by exactly `acc · delta` |
| Kinematics.Velocity.constructor | physics/src/components/velocity.rs:10 | a velocity component holds the given vector |
| Kinematics.Velocity.Accelerate | physics/src/components/velocity.rs:37-39 | the velocity grows by `acc · delta` and nothing else changes |
| Kinematics.AcceleratedSplits | physics/src/components/velocity.rs:20-23 | two accelerations by `d1` then `d2` equal one by `d1 + d2`, so the integrator's two half-steps add up to a full one |
| Kinematics.AcceleratedUndone | physics/src/components/velocity.rs:37-39 | accelerating by `-delta` undoes accelerating by `delta` |
| Kinematics.AcceleratedUnchanged | physics/src/components/velocity.rs:37-39 | a zero duration or a zero accelerator leaves the velocity unchanged |
| Kinematics.AccelerateExample | physics/src/components/velocity.rs:30-34 | from rest, acceleration `ONE` for 5 seconds gives `ONE * 5` |
| Integrator.FixedMomentParts | physics/src/lib.rs:49 | the fixed moment `(Z, (0, 10, 0))` splits into torque `(-10, 0, 0)` and force `(0, 10, 0)` |
| Integrator.AcceleratorOf | physics/src/lib.rs:47 | a body without an `Accelerator` component is treated as having zero acceleration; otherwise its own accelerator is used |
| Integrator.AngularAccelerationOf | physics/src/lib.rs:49-50 | a body's angular acceleration is the vector that its inertia tensor maps onto the fixed torque |
| Integrator.RotationStep | physics/src/lib.rs:58-63 | the guard `w · delta / 2 != 0` holds exactly when the rotation's scalar part and `delta` are both non-zero; then the rotation becomes `normalize(q + normalize(dq) q)`, otherwise it is kept |
| Integrator.StepBody | physics/src/lib.rs:46-67 | one loop iteration of `update_simulated` gives the closed-form step for the body's own angular acceleration |
| Integrator.Advance | physics/src/lib.rs:53-66 | the half-step/move/rotate/half-step sequence ends with velocity and angular velocity advanced by a full step, the translation moved by the half-step velocity, and the rotation updated only when the guard holds |
| Integrator.UpdateSimulated | physics/src/lib.rs:30-68 | every simulated body is stepped and every other body is left unchanged |
| Integrator.ZeroDeltaIsIdentity | physics/src/lib.rs:43-66 | a frame of zero duration changes no body |
| Integrator.ZeroScalarPartFreezesRotation | physics/src/lib.rs:58-63 | when the rotation's scalar part is zero the guard fails and the rotation is unchanged, whatever the angular velocity |
| Integrator.NoAcceleratorDrifts | physics/src/lib.rs:47-66 | without an accelerator the velocity is constant and the translation moves by `velocity · delta` |
| Integrator.StepN | physics/src/lib.rs:46-67 | repeated frames never change a body's inertia or accelerator |
| Integrator.SteppedKeepsAngularAcceleration | physics/src/lib.rs:47-50 | a tick keeps the tensor invertible and leaves the body's angular acceleration under the fixed moment unchanged |
| Integrator.StepNIsRepeatedStepBody | physics/src/lib.rs:46-67 | `n + 1` ticks under the body's own angular acceleration are one `StepBody` tick followed by `n` ticks under the stepped body's own angular acceleration, so `StepN` describes repeated runs of the system |
| Integrator.StepNVelocity | physics/src/lib.rs:53-66 | after `n` frames of `delta`, the velocity has been accelerated for `n · delta` |
| Integrator.StepNAngularVelocity | physics/src/lib.rs:54-65 | after `n` frames of `delta`, the angular velocity has grown by `alpha · n · delta` |
| Integrator.StepNTranslation | physics/src/lib.rs:53-66 | after `n` frames totalling `t` seconds, the translation is `p + v·t + a·t²/2` exactly (the leapfrog scheme is exact under constant acceleration) |
| Integrator.SubdividedTicks | physics/src/lib.rs:43-44 | splitting a duration into `n` equal frames gives the same final velocity as the whole duration |
| Integrator.AddScales | physics/src/lib.rs:54-65 | the two half-step angular-velocity updates add up to one full step |
| TranslationSim.Matched | src/sim/simulation.rs:11 | the query visits an entity exactly when it carries the `Simulated` marker and has a `Velocity` |
| TranslationSim.Moved | src/sim/simulation.rs:11-15 | a matched entity's translation changes by exactly `velocity · delta`; its velocity, rotation, scale and marker are kept; an unmatched entity is unchanged |
| TranslationSim.Update | src/sim/simulation.rs:11-15 | each simulated entity with a velocity moves by `velocity · delta`; velocity, rotation, scale and all other entities are unchanged |
| TranslationSim.ZeroDeltaIsIdentity | src/sim/simulation.rs:13 | a zero-length frame moves nothing |
| TranslationSim.TicksCompose | src/sim/simulation.rs:13 | two frames move an entity as far as one frame of their combined length |
| TranslationSim.BackwardsUndoes | src/sim/simulation.rs:13 | a frame of `-delta` undoes a frame of `delta` |
| TranslationSim.AgreesWithLeapfrog | src/sim/simulation.rs:13 | without an accelerator, the leapfrog integrator moves a body exactly as the translation-only one does |
| Camera.DefaultTarget | src/camera.rs:98-102 | the default target is the point at the origin |
| Camera.Normalize | src/camera.rs:81-89 | below `-PI` the angle gains `TAU`, above `PI` it loses `TAU`, and otherwise it is unchanged; inputs in `[-3PI, 3PI]` land in `[-PI, PI]` |
| Camera.SumMotion | src/camera.rs:67 | a single event sums to its own delta, and events with no motion along an axis sum to no motion along it |
| Camera.SumMotionAppend | src/camera.rs:67 | summing the mouse deltas of two batches of events is the sum of the batches' sums |
| Camera.Turn | src/camera.rs:70-75 | the new angle is `s`, the old angle plus the inverted delta scaled by 0.01, wrapped once: `s - TAU` when `s > PI`, `s + TAU` when `s < -PI`, and `s` itself when it is already in `[-PI, PI]` |
| Camera.TurnStaysInRange | src/camera.rs:74-75 | an angle in `[-PI, PI]` stays there after a turn whose scaled delta is at most `TAU` in size |
| Camera.OrbitState.Default | src/camera.rs:104-114 | the default state targets the origin, has radius 10, is not upside down, has pitch and yaw 0, and has both angles in range |
| Camera.OrbitState.UpdateCamera | src/camera.rs:57-79 | yaw and pitch become the wrapped sums of the old angles and the inverted mouse motion scaled by 0.01; target, radius and `upside_down` are untouched; angles in range stay in range for turns of at most a full circle |

## Left out

- `f32` rounding. Every property is proved over exact reals, and no bit-exact float equality is claimed. For example, the `335.0 / 12.0` comparison in the inertia tests holds in `f32` only by rounding.
- Square roots:
  - The quaternion `normalize` is a parameter of the integrator, so no property depends on its result.
  - `try_normalize` and `project_onto_normalized` are replaced by the rational projection; `Vectors.NormalizedProjectionIsProjection` relates the two.
  - `Velocity::to_direction`, `pitch`, `yaw` and the other direction helpers of `velocity.rs` are not part of this model.
- Singular inertia tensors. `InertiaTensors.GetAngularAcceleration` requires a non-zero determinant, and so do the integrator members that call it. For a singular tensor the source divides by zero and yields non-finite values, which have no counterpart over the reals. A cylinder of zero mass or zero radius is singular.
- Unknown accelerator constant. `Accelerator::ZERO`, used at `physics/src/lib.rs:47`, is not defined in `acceleration.rs`. It is taken to be the zero accelerator (`Kinematics.NoAcceleration`).
- Unknown torque type. `physics/src/inertia.rs:6` imports a `Torque` from `crate::force`, which defines none. The model uses the `Torque` of `physics/src/components/force.rs`.
- Inertia component file. `physics/src/components/inertia.rs` is not part of this model; the integrator uses the `Inertia` of `physics/src/inertia.rs`.
- Bevy and ECS plumbing:
  - the plugins' `build` functions;
  - `Query`, `Res<Time>` and `Commands`;
  - the bundles;
  - the camera's `spawn`;
  - reading mouse events (the events arrive as a sequence of deltas);
  - the `expect` panic when there is not exactly one primary camera.
  - Time is a parameter `delta`. Entities the queries do not match are carried along unchanged.
- Double registration. `update_simulated` is registered twice (`physics/src/lib.rs:19-20`), so the app steps every body twice per frame. `Integrator.StepN` covers repeated steps (`Integrator.StepNIsRepeatedStepBody` ties it to repeated `StepBody` ticks), but the scheduling itself is not modelled.
- `OrbitState::to_transform` and the transform write at the end of `update_camera` (`src/camera.rs:78`). They need `Quat::from_euler` and `Transform::back`, and hit `todo!()` for entity targets.
- Camera.OrbitState.UpdateCamera: the range guarantee is stated only for turns whose scaled delta is at most `TAU` in size. Larger mouse motion can leave an angle outside `[-PI, PI]`, because `normalize` wraps only once.
- Entity targets. An `OrbitTarget::Entity` is identified by a natural number; Bevy's entity generations are not modelled.
- `src/main.rs`, the key bindings and the vector-arrow gizmos are not part of this model.
