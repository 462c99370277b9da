/**
 * The legacy spring pull (ShipPullPhysics.java): a taut rope pulls the ship
 * toward the animal with a clamped spring-damper force at its centre of mass.
 */
module ShipPullPhysics {
  import opened Wrappers
  import opened Geometry
  import opened World

  const SLACK := 3.5
  const SPRING := 80.0
  const DAMPING := 18.0
  const MAX_FORCE := 2500.0
  const MAX_REASONABLE_DIST := 64.0
  const MIN_DIST := 0.000001

  /** The spring-damper magnitude, clamped to [0, MAX_FORCE]. */
  function SpringDamper(stretch: real, relVel: real): (m: real)
    ensures 0.0 <= m <= MAX_FORCE
    ensures 0.0 <= stretch * SPRING + relVel * DAMPING <= MAX_FORCE ==> m == stretch * SPRING + relVel * DAMPING
    ensures stretch * SPRING + relVel * DAMPING < 0.0 ==> m == 0.0
    ensures stretch * SPRING + relVel * DAMPING > MAX_FORCE ==> m == MAX_FORCE
  {
    var raw := stretch * SPRING + relVel * DAMPING;
    if raw < 0.0 then 0.0 else if raw > MAX_FORCE then MAX_FORCE else raw
  }

  /** The world anchor of the knot on `fencePos`, and the ship that carries it, when all reads succeed. */
  function PullAnchor(host: KnotHost, animalPos: Vec3, fencePos: BlockPos): Option<(Ship, Vec3)>
  {
    var knot := host.knotAt(fencePos, animalPos);
    if knot.None? then None
    else
      var ship := host.shipManaging(knot.value);
      if ship.None? then None
      else
        var anchorWorld := host.shipyardToWorld(ship.value, knot.value);
        if anchorWorld.None? then None
        else Some((ship.value, anchorWorld.value))
  }

  /**
   * The force for a taut rope whose horizontal offset from the anchor to the
   * animal is `delta`, of length `dist`: the unit direction scaled by the
   * spring-damper magnitude of the stretch and of the animal's speed along it.
   */
  function PullForce(delta: Vec3, dist: real, animalVel: Vec3): Vec3
    requires dist > 0.0
  {
    Scale(Scale(delta, 1.0 / dist), PullMagnitude(delta, dist, animalVel))
  }

  /** The clamped spring-damper magnitude for that offset: stretch past the slack, and speed along the rope. */
  function PullMagnitude(delta: Vec3, dist: real, animalVel: Vec3): (m: real)
    requires dist > 0.0
    ensures 0.0 <= m <= MAX_FORCE
  {
    var dir := Scale(delta, 1.0 / dist);
    SpringDamper(dist - SLACK, Dot(animalVel, dir))
  }

  /**
   * tickLeashPull: no force without a knot, a ship or a world anchor, nor
   * when the horizontal distance is implausible or within the slack;
   * otherwise one force along the unit vector from the anchor to the animal,
   * applied at the centre of mass.
   */
  function TickLeashPull(host: KnotHost, animalPos: Vec3, animalVel: Vec3, fencePos: BlockPos): (r: Option<ForceCall>)
    ensures PullAnchor(host, animalPos, fencePos).None? ==> r.None?
    ensures PullAnchor(host, animalPos, fencePos).Some? ==>
      var (ship, anchor) := PullAnchor(host, animalPos, fencePos).value;
      var dist := HorizDist(host.sqrt, animalPos, anchor);
      && (r.Some? <==> SLACK < dist <= MAX_REASONABLE_DIST)
      && (r.Some? ==> && r.value.ship == ship && r.value.at.None?
                      && r.value.force == PullForce(Horizontal(Sub(animalPos, anchor)), dist, animalVel))
  {
    var pa := PullAnchor(host, animalPos, fencePos);
    if pa.None? then None
    else
      var (ship, anchorWorld) := pa.value;
      var delta := Horizontal(Sub(animalPos, anchorWorld));
      var dist := HorizDist(host.sqrt, animalPos, anchorWorld);
      if dist > MAX_REASONABLE_DIST || dist < MIN_DIST then None
      else if dist <= SLACK then None
      else Some(ForceCall(ship, PullForce(delta, dist, animalVel), None))
  }

  /**
   * The pull force is horizontal, has the clamped spring-damper magnitude,
   * and points from the anchor toward the animal: on the same line, on the
   * animal's side.
   */
  lemma PullForceAlongRope(delta: Vec3, dist: real, animalVel: Vec3)
    requires delta.y == 0.0 && dist > 0.0 && dist * dist == HorizSq(delta)
    ensures var f := PullForce(delta, dist, animalVel);
            var mag := PullMagnitude(delta, dist, animalVel);
            && f.y == 0.0
            && HorizSq(f) == mag * mag
            && f.x * delta.z == f.z * delta.x
            && f.x * delta.x + f.z * delta.z >= 0.0
  {
    var mag := PullMagnitude(delta, dist, animalVel);
    ScaledVector(delta, dist, mag);
  }

  lemma ScaledVector(delta: Vec3, dist: real, mag: real)
    requires delta.y == 0.0 && dist > 0.0 && dist * dist == HorizSq(delta) && mag >= 0.0
    ensures var f := Scale(Scale(delta, 1.0 / dist), mag);
            && f.y == 0.0
            && HorizSq(f) == mag * mag
            && f.x * delta.z == f.z * delta.x
            && f.x * delta.x + f.z * delta.z >= 0.0
  {
    ScaledOffset(delta.x, delta.z, dist, mag);
  }

  /** Every force tickLeashPull asks for obeys PullForceAlongRope, with the real horizontal distance. */
  lemma TickLeashPullAlongRope(host: KnotHost, animalPos: Vec3, animalVel: Vec3, fencePos: BlockPos)
    requires IsSqrt(host.sqrt)
    requires TickLeashPull(host, animalPos, animalVel, fencePos).Some?
    ensures var (ship, anchor) := PullAnchor(host, animalPos, fencePos).value;
            var delta := Horizontal(Sub(animalPos, anchor));
            var dist := HorizDist(host.sqrt, animalPos, anchor);
            && dist * dist == HorizSq(delta)
            && TickLeashPull(host, animalPos, animalVel, fencePos).value.force == PullForce(delta, dist, animalVel)
  {
    var (ship, anchor) := PullAnchor(host, animalPos, fencePos).value;
    var delta := Horizontal(Sub(animalPos, anchor));
    assert HorizSq(delta) == HorizSq(Sub(animalPos, anchor));
  }
}
