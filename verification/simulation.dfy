/** The earlier, translation-only integrator `update` of
    `src/sim/simulation.rs`: every simulated entity with a velocity drifts by
    `velocity * delta`. */
module TranslationSim {
  import opened Vectors
  import opened Wrappers
  import opened Transforms
  import Integrator
  import Quaternions

  /** An entity as the query sees it: its transform, its velocity component
      if it has one, and whether it carries the `Simulated` marker. */
  datatype Entity = Entity(transform: Transform, velocity: Option<Vec3>, simulated: bool)

  /** The entities the query visits: simulated and with a velocity. */
  predicate Matched(e: Entity): (r: bool)
    ensures !e.simulated ==> !r
    ensures e.velocity == None ==> !r
    ensures e.simulated && e.velocity != None ==> r
  {
    e.simulated && e.velocity.Some?
  }

  /** The entity after one tick of `delta` seconds. */
  function Moved(e: Entity, delta: real): (r: Entity)
    ensures r.velocity == e.velocity && r.simulated == e.simulated
    ensures r.transform.rotation == e.transform.rotation && r.transform.scale == e.transform.scale
    ensures Matched(e) ==> Sub(r.transform.translation, e.transform.translation) == Scale(e.velocity.value, delta)
    ensures !Matched(e) ==> r == e
  {
    if Matched(e) then
      e.(transform := e.transform.(translation := Add(e.transform.translation, Scale(e.velocity.value, delta))))
    else
      e
  }

  /** `update`: each matched entity's translation grows by its velocity times
      `delta`; velocity, rotation, scale and every unmatched entity stay as
      they were. */
  method Update(entities: array<Entity>, delta: real)
    modifies entities
    ensures forall i :: 0 <= i < entities.Length ==>
      && entities[i].velocity == old(entities[i].velocity)
      && entities[i].simulated == old(entities[i].simulated)
      && entities[i].transform.rotation == old(entities[i].transform.rotation)
      && entities[i].transform.scale == old(entities[i].transform.scale)
      && entities[i].transform.translation
         == if Matched(old(entities[i])) then Add(old(entities[i].transform.translation), Scale(old(entities[i].velocity.value), delta))
            else old(entities[i].transform.translation)
    ensures forall i :: 0 <= i < entities.Length ==> entities[i] == Moved(old(entities[i]), delta)
  {
    var i := 0;
    while i < entities.Length
      invariant 0 <= i <= entities.Length
      invariant forall j :: 0 <= j < i ==> entities[j] == Moved(old(entities[j]), delta)
      invariant forall j :: i <= j < entities.Length ==> entities[j] == old(entities[j])
    {
      var e := entities[i];
      if e.simulated && e.velocity.Some? {
        var t := e.transform;
        entities[i] := e.(transform := t.(translation := Add(t.translation, Scale(e.velocity.value, delta))));
      }
      i := i + 1;
    }
  }

  /** A tick of length zero moves nothing. */
  lemma ZeroDeltaIsIdentity(e: Entity)
    ensures Moved(e, 0.0) == e
  {
    if Matched(e) {
      assert Scale(e.velocity.value, 0.0) == Zero;
    }
  }

  /** Two ticks move an entity as far as one tick of their combined length. */
  lemma TicksCompose(e: Entity, d1: real, d2: real)
    ensures Moved(Moved(e, d1), d2) == Moved(e, d1 + d2)
  {
    if Matched(e) {
      var v := e.velocity.value;
      assert Add(Scale(v, d1), Scale(v, d2)) == Scale(v, d1 + d2) by {
        assert v.x * d1 + v.x * d2 == v.x * (d1 + d2);
        assert v.y * d1 + v.y * d2 == v.y * (d1 + d2);
        assert v.z * d1 + v.z * d2 == v.z * (d1 + d2);
      }
      assert Add(Add(e.transform.translation, Scale(v, d1)), Scale(v, d2))
          == Add(e.transform.translation, Add(Scale(v, d1), Scale(v, d2)));
    }
  }

  /** Moving undoes itself when the clock runs backwards. */
  lemma BackwardsUndoes(e: Entity, delta: real)
    ensures Moved(Moved(e, delta), -delta) == e
  {
    TicksCompose(e, delta, -delta);
    ZeroDeltaIsIdentity(e);
  }

  /** The later leapfrog integrator agrees with this one on a body without an
      accelerator: both move it by `velocity * delta`. */
  lemma AgreesWithLeapfrog(b: Integrator.Body, alpha: Vec3, delta: real, normalize: Quaternions.Quat -> Quaternions.Quat)
    requires b.accelerator == None
    ensures Integrator.Stepped(b, alpha, delta, normalize).transform.translation
         == Moved(Entity(b.transform, Some(b.velocity), true), delta).transform.translation
  {
    Integrator.NoAcceleratorDrifts(b, alpha, delta, normalize);
  }
}
