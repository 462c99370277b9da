/**
 * The rigid rein (ShipRopeConstraint.java): an animal's desired move is
 * clamped so that, horizontally, it ends no farther than the rope length
 * from the anchor on the ship. Every failed read leaves the move unchanged.
 */
module ShipRopeConstraint {
  import opened Wrappers
  import opened Geometry
  import opened World

  const ROPE_LEN := 2.5
  const EPS := 0.0001
  const MAX_REASONABLE_DIST := 256.0

  /** The ship managing a candidate anchor, or the fallback ship. */
  function ShipHere(host: KnotHost, fallbackShip: Option<Ship>, anchor: Vec3): Option<Ship>
  {
    var s := host.shipManaging(anchor);
    if s.Some? then s else fallbackShip
  }

  /** A candidate is considered when it exists and some ship stands behind it. */
  predicate Usable(host: KnotHost, fallbackShip: Option<Ship>, cand: Option<Vec3>)
  {
    cand.Some? && ShipHere(host, fallbackShip, cand.value).Some?
  }

  /**
   * considerCandidate: the smaller of the running best and this candidate's
   * horizontal distance to the animal; an unusable candidate changes nothing.
   */
  function ConsiderCandidate(host: KnotHost, fallbackShip: Option<Ship>, animalPos: Vec3,
                             anchorWorld: Option<Vec3>, currentBest: Ext): (r: Ext)
    ensures !Usable(host, fallbackShip, anchorWorld) ==> r == currentBest
    ensures Usable(host, fallbackShip, anchorWorld) ==>
      var dist := HorizDist(host.sqrt, animalPos, anchorWorld.value);
      && r.Fin? && r.r <= dist
      && (currentBest.Fin? ==> r.r <= currentBest.r)
      && (r == currentBest || r.r == dist)
  {
    if anchorWorld.None? then currentBest
    else if ShipHere(host, fallbackShip, anchorWorld.value).None? then currentBest
    else currentBest.Min(Fin(HorizDist(host.sqrt, animalPos, anchorWorld.value)))
  }

  /** Candidate A: the stored anchor read as a shipyard position and carried to the world. */
  function CandidateA(host: KnotHost, fallbackShip: Option<Ship>, anchorRaw: Vec3): Option<Vec3>
  {
    if fallbackShip.None? then None else host.shipyardToWorld(fallbackShip.value, anchorRaw)
  }

  /**
   * chooseBestAnchorWorld: of the two readings of the stored anchor (A:
   * shipyard carried to the world; B: already world), the usable one nearer
   * the animal, A on a tie; nothing when neither is usable or the nearer one
   * is beyond MAX_REASONABLE_DIST.
   */
  function ChooseBestAnchorWorld(host: KnotHost, fallbackShip: Option<Ship>, animalPos: Vec3, anchorRaw: Vec3): (r: Option<Vec3>)
    ensures var a := CandidateA(host, fallbackShip, anchorRaw);
            var b := Some(anchorRaw);
            var okA := Usable(host, fallbackShip, a);
            var okB := Usable(host, fallbackShip, b);
            var distA := if okA then HorizDist(host.sqrt, animalPos, a.value) else 0.0;
            var distB := HorizDist(host.sqrt, animalPos, anchorRaw);
            && (r.Some? ==> (okA && r == a) || (okB && r == b))
            && (r.Some? ==> HorizDist(host.sqrt, animalPos, r.value) <= MAX_REASONABLE_DIST)
            && (r.Some? && okA ==> HorizDist(host.sqrt, animalPos, r.value) <= distA)
            && (r.Some? && okB ==> HorizDist(host.sqrt, animalPos, r.value) <= distB)
            && (okA && (!okB || distA <= distB) && distA <= MAX_REASONABLE_DIST ==> r == a)
            && (okB && (!okA || distB < distA) && distB <= MAX_REASONABLE_DIST ==> r == b)
            && (!okA && !okB ==> r.None?)
  {
    var a := CandidateA(host, fallbackShip, anchorRaw);
    var b := Some(anchorRaw);
    var d1 := ConsiderCandidate(host, fallbackShip, animalPos, a, Inf);
    var best1 := if d1 != Inf then a else None;
    var bd := ConsiderCandidate(host, fallbackShip, animalPos, b, d1);
    var best := if bd.Less(d1) then b else best1;
    var bestDist := if bd.Less(d1) then bd else d1;
    if best.None? then None
    else if bestDist.Inf? then None
    else if bestDist.r > MAX_REASONABLE_DIST then None
    else best
  }

  /**
   * The geometric clamp of applyRigid once the anchor is known: fail open
   * when the target is implausibly near or far, leave moves that end within
   * the rope alone, and otherwise pull the target in along its bearing from
   * the anchor to exactly the rope length, keeping the vertical move.
   */
  function ClampMove(sqrt: real -> real, anchor: Vec3, pos0: Vec3, move: Vec3): (r: Vec3)
    ensures r.y == move.y
    ensures var dist := HorizDist(sqrt, Add(pos0, move), anchor);
            dist < EPS || dist > MAX_REASONABLE_DIST || dist <= ROPE_LEN + EPS ==> r == move
  {
    var pos1 := Add(pos0, move);
    var d := Horizontal(Sub(pos1, anchor));
    var dist := HorizDist(sqrt, pos1, anchor);
    if dist < EPS then move
    else if dist > MAX_REASONABLE_DIST then move
    else if dist <= ROPE_LEN + EPS then move
    else
      var dir := Scale(d, 1.0 / dist);
      var clamped := Vec3(anchor.x + dir.x * ROPE_LEN, pos1.y, anchor.z + dir.z * ROPE_LEN);
      Sub(clamped, pos0)
  }

  /** A clamped move ends exactly one rope length from the anchor. */
  lemma ClampReachesRope(sqrt: real -> real, anchor: Vec3, pos0: Vec3, move: Vec3)
    requires IsSqrt(sqrt)
    requires ROPE_LEN + EPS < HorizDist(sqrt, Add(pos0, move), anchor) <= MAX_REASONABLE_DIST
    ensures var p := Add(pos0, ClampMove(sqrt, anchor, pos0, move));
            HorizSq(Sub(p, anchor)) == ROPE_LEN * ROPE_LEN && HorizDist(sqrt, p, anchor) == ROPE_LEN
  {
    var d := Sub(Add(pos0, move), anchor);
    var dist := HorizDist(sqrt, Add(pos0, move), anchor);
    assert dist * dist == d.x * d.x + d.z * d.z;
    var q := Sub(Add(pos0, ClampMove(sqrt, anchor, pos0, move)), anchor);
    assert q.x == d.x * (1.0 / dist) * ROPE_LEN;
    assert q.z == d.z * (1.0 / dist) * ROPE_LEN;
    ScaledLength(d.x, d.z, dist, ROPE_LEN);
    SqrtOfSquare(sqrt, ROPE_LEN);
  }

  /** A clamped move keeps the target's bearing from the anchor: same line, same side. */
  lemma ClampKeepsBearing(sqrt: real -> real, anchor: Vec3, pos0: Vec3, move: Vec3)
    requires IsSqrt(sqrt)
    requires ROPE_LEN + EPS < HorizDist(sqrt, Add(pos0, move), anchor) <= MAX_REASONABLE_DIST
    ensures var d := Sub(Add(pos0, move), anchor);
            var q := Sub(Add(pos0, ClampMove(sqrt, anchor, pos0, move)), anchor);
            q.x * d.z == q.z * d.x && q.x * d.x + q.z * d.z > 0.0
  {
    var d := Sub(Add(pos0, move), anchor);
    var dist := HorizDist(sqrt, Add(pos0, move), anchor);
    assert dist * dist == d.x * d.x + d.z * d.z;
    var q := Sub(Add(pos0, ClampMove(sqrt, anchor, pos0, move)), anchor);
    assert q.x == d.x * (1.0 / dist) * ROPE_LEN && q.z == d.z * (1.0 / dist) * ROPE_LEN;
    ScaledOffset(d.x, d.z, dist, ROPE_LEN);
  }

  /** Whenever the clamp acts on a plausible target, the move ends within the rope. */
  lemma ClampBoundsDistance(sqrt: real -> real, anchor: Vec3, pos0: Vec3, move: Vec3)
    requires IsSqrt(sqrt)
    requires EPS <= HorizDist(sqrt, Add(pos0, move), anchor) <= MAX_REASONABLE_DIST
    ensures HorizDist(sqrt, Add(pos0, ClampMove(sqrt, anchor, pos0, move)), anchor) <= ROPE_LEN + EPS
  {
    if HorizDist(sqrt, Add(pos0, move), anchor) > ROPE_LEN + EPS {
      ClampReachesRope(sqrt, anchor, pos0, move);
    }
  }

  /**
   * applyRigid: the move unchanged when an argument is missing, no knot is
   * on the fence, no ship manages the knot or no anchor is usable; otherwise
   * the clamped move.
   */
  function ApplyRigid(host: Option<KnotHost>, animalPos: Option<Vec3>, fencePos: Option<BlockPos>,
                      anchorRaw: Option<Vec3>, desiredMove: Option<Vec3>): (r: Option<Vec3>)
    ensures host.None? || animalPos.None? || fencePos.None? || anchorRaw.None? || desiredMove.None? ==>
      r == desiredMove
    ensures r.Some? ==> desiredMove.Some? && r.value.y == desiredMove.value.y
    ensures host.Some? && animalPos.Some? && fencePos.Some? && anchorRaw.Some? && desiredMove.Some? ==>
      var h := host.value;
      var knot := h.knotAt(fencePos.value, animalPos.value);
      var ship0 := if knot.Some? then h.shipManaging(knot.value) else None;
      var anchor := if ship0.Some? then ChooseBestAnchorWorld(h, ship0, animalPos.value, anchorRaw.value) else None;
      && (anchor.None? ==> r == desiredMove)
      && (anchor.Some? ==> r == Some(ClampMove(h.sqrt, anchor.value, animalPos.value, desiredMove.value)))
  {
    if host.None? || animalPos.None? || fencePos.None? || anchorRaw.None? || desiredMove.None? then desiredMove
    else
      var h := host.value;
      var knot := h.knotAt(fencePos.value, animalPos.value);
      if knot.None? then desiredMove
      else
        var ship0 := h.shipManaging(knot.value);
        if ship0.None? then desiredMove
        else
          var anchorWorld := ChooseBestAnchorWorld(h, ship0, animalPos.value, anchorRaw.value);
          if anchorWorld.None? then desiredMove
          else Some(ClampMove(h.sqrt, anchorWorld.value, animalPos.value, desiredMove.value))
  }
}
