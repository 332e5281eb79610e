/** The orbit camera of `src/camera.rs`: mouse motion turns the camera's yaw
    and pitch, and each angle is wrapped back by one full turn when it leaves
    `[-PI, PI]`. */
module Camera {
  import opened Vectors

  /** `std::f32::consts::PI`, the `f32` nearest to pi, as an exact real. */
  const PI: real := 3.1415927410125732421875
  /** `std::f32::consts::TAU`; doubling is exact in `f32`, so it is `2 * PI`. */
  const TAU: real := 2.0 * PI

  datatype Vec2 = Vec2(x: real, y: real)

  /** What the camera orbits. An `Entity` is identified by its id alone. */
  datatype OrbitTarget = Entity(id: nat) | Point(center: Vec3)

  /** `OrbitTarget::default()`: the origin. */
  function DefaultTarget(): (t: OrbitTarget)
    ensures t.Point? && t.center == Zero
  {
    Point(V(0.0, 0.0, 0.0))
  }

  /** `normalize`: one wrap by a full turn towards `[-PI, PI]`. */
  function Normalize(v: real): (r: real)
    ensures v < -PI ==> r == v + TAU
    ensures v > PI ==> r == v - TAU
    ensures -PI <= v <= PI ==> r == v
    ensures -3.0 * PI <= v <= 3.0 * PI ==> -PI <= r <= PI
  {
    if v < -PI then v + TAU
    else if v > PI then v - TAU
    else v
  }

  /** The summed mouse deltas of a frame, added up from the left as the
      iterator's `sum` does. */
  function SumMotion(deltas: seq<Vec2>): (r: Vec2)
    ensures |deltas| == 1 ==> r == deltas[0]
    ensures (forall i :: 0 <= i < |deltas| ==> deltas[i].x == 0.0) ==> r.x == 0.0
    ensures (forall i :: 0 <= i < |deltas| ==> deltas[i].y == 0.0) ==> r.y == 0.0
  {
    if deltas == [] then Vec2(0.0, 0.0)
    else
      var s := SumMotion(deltas[..|deltas| - 1]);
      var d := deltas[|deltas| - 1];
      Vec2(s.x + d.x, s.y + d.y)
  }

  /** Reading the events in two batches sums to the same motion. */
  lemma {:induction false} SumMotionAppend(a: seq<Vec2>, b: seq<Vec2>)
    ensures SumMotion(a + b).x == SumMotion(a).x + SumMotion(b).x
    ensures SumMotion(a + b).y == SumMotion(a).y + SumMotion(b).y
    decreases |b|
  {
    if b == [] {
      assert a + b == a;
    } else {
      var b' := b[..|b| - 1];
      assert (a + b)[..|a + b| - 1] == a + b';
      assert (a + b)[|a + b| - 1] == b[|b| - 1];
      SumMotionAppend(a, b');
    }
  }

  /** The new angle after one frame's mouse `delta` along its axis: the
      axis is inverted, scaled by `0.01` and the sum is wrapped. */
  function Turn(angle: real, delta: real): (r: real)
    ensures angle + (-delta) * 0.01 > PI ==> r == angle + (-delta) * 0.01 - TAU
    ensures angle + (-delta) * 0.01 < -PI ==> r == angle + (-delta) * 0.01 + TAU
    ensures -PI <= angle + (-delta) * 0.01 <= PI ==> r == angle + (-delta) * 0.01
  {
    Normalize(angle + (-delta) * 0.01)
  }

  /** An angle in `[-PI, PI]` stays there after a turn of at most a full
      circle. */
  lemma TurnStaysInRange(angle: real, delta: real)
    requires -PI <= angle <= PI
    requires -TAU <= delta * 0.01 <= TAU
    ensures -PI <= Turn(angle, delta) <= PI
  {
    assert -3.0 * PI <= angle + (-delta) * 0.01 <= 3.0 * PI;
  }

  /** The state of the orbiting camera; `update_camera` changes it in place. */
  class OrbitState {
    var target: OrbitTarget
    var radius: real
    var upsideDown: bool
    var pitch: real
    var yaw: real

    predicate AnglesInRange()
      reads this
    {
      -PI <= pitch <= PI && -PI <= yaw <= PI
    }

    /** `OrbitState::default()`. */
    constructor Default()
      ensures target == Point(Zero) && radius == 10.0 && !upsideDown
      ensures pitch == 0.0 && yaw == 0.0
      ensures AnglesInRange()
    {
      target := DefaultTarget();
      radius := 10.0;
      upsideDown := false;
      pitch := 0.0;
      yaw := 0.0;
    }

    /** The yaw and pitch update of `update_camera` for one frame's mouse
        events. */
    method UpdateCamera(events: seq<Vec2>)
      modifies this
      ensures yaw == Turn(old(yaw), SumMotion(events).x)
      ensures pitch == Turn(old(pitch), SumMotion(events).y)
      ensures target == old(target) && radius == old(radius) && upsideDown == old(upsideDown)
      ensures (old(AnglesInRange()) && -TAU <= SumMotion(events).x * 0.01 <= TAU
               && -TAU <= SumMotion(events).y * 0.01 <= TAU) ==> AnglesInRange()
    {
      var motion := SumMotion(events);
      motion := motion.(y := -motion.y);
      motion := motion.(x := -motion.x);
      if -PI <= yaw <= PI && -TAU <= SumMotion(events).x * 0.01 <= TAU {
        TurnStaysInRange(yaw, SumMotion(events).x);
      }
      if -PI <= pitch <= PI && -TAU <= SumMotion(events).y * 0.01 <= TAU {
        TurnStaysInRange(pitch, SumMotion(events).y);
      }
      yaw := Normalize(yaw + motion.x * 0.01);
      pitch := Normalize(pitch + motion.y * 0.01);
    }
  }
}
