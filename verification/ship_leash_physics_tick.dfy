/**
 * The ship-leash controller's per-tick loop (ShipLeashPhysicsTick.java):
 * every second server tick, each reined animal near a player and leashed to
 * a fence knot on a ship is handled once. Its anchor is resolved from two
 * readings of the knot position, and the force decision of LeashControl is
 * turned into force requests and into the per-animal stored pull force.
 */
module LeashPhysicsTick {
  import opened Wrappers
  import opened Geometry
  import opened World
  import opened Reined
  import opened ControlState
  import opened LeashControl

  const MAX_REASONABLE_DIST := 128.0
  const MIN_DIST := 0.000001
  /** Input older than this many ticks no longer counts as the owner controlling. */
  const CONTROL_GRACE_TICKS := 5
  const BAD_ANCHOR_INTERVAL := 40
  const NO_BAD_ANCHOR_TICK := -999999

  /**
   * The reads the controller makes of the world: the ship managing a
   * position, the shipyard-to-world conversion, the ship's velocity (world
   * space, per second; zero when unavailable) and mass, square root and
   * power.
   */
  datatype PhysicsHost = PhysicsHost(
    shipManaging: Vec3 -> Option<Ship>,
    shipyardToWorld: (Ship, Vec3) -> Option<Vec3>,
    velocity: Ship -> Vec3,
    mass: Ship -> real,
    sqrt: real -> real,
    pow: (real, real) -> real)

  /** What the controller asks of the world: a force on a ship, or dropping a ship class's cached transforms. */
  datatype Effect = ApplyForce(call: ForceCall) | ClearTransformCache(ship: Ship)

  /**
   * An animal found near a player: its entity id and UUID, position and
   * velocity, its reins record (absent when the capability is missing),
   * whether it is leashed and, if its leash holder is a fence knot, the
   * knot's position.
   */
  datatype AnimalView = AnimalView(
    entityId: int,
    uuid: Uuid,
    pos: Vec3,
    vel: Vec3,
    reined: Option<ReinedAnimal>,
    leashed: bool,
    knotPos: Option<Vec3>)

  /** A player: its own tick count and the animals within its scan box, in the order the world lists them. */
  datatype PlayerView = PlayerView(tickCount: int, nearby: seq<AnimalView>)

  // ---------------- anchor resolution ----------------

  datatype AnchorSolve = AnchorSolve(ok: bool, anchorWorld: Option<Vec3>, shipObj: Option<Ship>, mode: string)

  const KNOT_AS_SHIPYARD := "knot_as_shipyard"
  const KNOT_AS_WORLD := "knot_as_world"

  /** The ship under a candidate anchor, or the knot's ship. */
  function ShipHere(h: PhysicsHost, fallbackShip: Ship, anchor: Vec3): Ship
  {
    var s := h.shipManaging(anchor);
    if s.Some? then s.value else fallbackShip
  }

  /** The running best of resolveAnchorWorld. */
  class BestAnchor {
    var anchorWorld: Option<Vec3>
    var shipObj: Option<Ship>
    var mode: string
    var dist: Ext

    constructor ()
      ensures anchorWorld.None? && shipObj.None? && mode == "none" && dist == Inf
    {
      anchorWorld := None;
      shipObj := None;
      mode := "none";
      dist := Inf;
    }

    /**
     * considerAnchor: a missing candidate changes nothing; otherwise the
     * candidate replaces the best exactly when it is strictly nearer.
     */
    method ConsiderAnchor(h: PhysicsHost, fallbackShip: Ship, animalWorldPos: Vec3, candidate: Option<Vec3>, candMode: string)
      modifies this
      ensures candidate.None? ==> anchorWorld == old(anchorWorld) && shipObj == old(shipObj) && mode == old(mode) && dist == old(dist)
      ensures candidate.Some? ==>
        var d := HorizDist(h.sqrt, animalWorldPos, candidate.value);
        if Fin(d).Less(old(dist)) then
          anchorWorld == candidate && shipObj == Some(ShipHere(h, fallbackShip, candidate.value)) && mode == candMode && dist == Fin(d)
        else
          anchorWorld == old(anchorWorld) && shipObj == old(shipObj) && mode == old(mode) && dist == old(dist)
    {
      if candidate.None? { return; }
      var shipHere := ShipHere(h, fallbackShip, candidate.value);
      var d := HorizDist(h.sqrt, animalWorldPos, candidate.value);
      if Fin(d).Less(dist) {
        dist := Fin(d);
        anchorWorld := candidate;
        shipObj := Some(shipHere);
        mode := candMode;
      }
    }
  }

  /**
   * The anchor resolveAnchorWorld settles on: of the knot read as a
   * shipyard position and carried to the world (when that conversion
   * succeeds) and the knot read as a world position, the one horizontally
   * nearer the animal, the shipyard reading on a tie; rejected, but still
   * reported, beyond MAX_REASONABLE_DIST.
   */
  function Resolution(h: PhysicsHost, ship0: Ship, knotPos: Vec3, animalWorldPos: Vec3): (r: AnchorSolve)
    ensures r.anchorWorld.Some? && r.shipObj.Some?
    ensures var a := h.shipyardToWorld(ship0, knotPos);
            var anchor := r.anchorWorld.value;
            && (anchor == knotPos || a == Some(anchor))
            && (a.Some? ==> HorizDist(h.sqrt, animalWorldPos, anchor) <= HorizDist(h.sqrt, animalWorldPos, a.value))
            && HorizDist(h.sqrt, animalWorldPos, anchor) <= HorizDist(h.sqrt, animalWorldPos, knotPos)
            && (a.Some? && HorizDist(h.sqrt, animalWorldPos, a.value) <= HorizDist(h.sqrt, animalWorldPos, knotPos) ==> anchor == a.value)
            && r.shipObj == Some(ShipHere(h, ship0, anchor))
            && (r.ok <==> HorizDist(h.sqrt, animalWorldPos, anchor) <= MAX_REASONABLE_DIST)
  {
    var a := h.shipyardToWorld(ship0, knotPos);
    var useA := a.Some? && HorizDist(h.sqrt, animalWorldPos, a.value) <= HorizDist(h.sqrt, animalWorldPos, knotPos);
    var anchor := if useA then a.value else knotPos;
    var mode := if useA then KNOT_AS_SHIPYARD else KNOT_AS_WORLD;
    var ship := ShipHere(h, ship0, anchor);
    if HorizDist(h.sqrt, animalWorldPos, anchor) > MAX_REASONABLE_DIST then
      AnchorSolve(false, Some(anchor), Some(ship), "all_bad:" + mode)
    else AnchorSolve(true, Some(anchor), Some(ship), mode)
  }

  /** A rejected anchor asks for the ship class's cached transforms to be dropped. */
  predicate ClearsCache(h: PhysicsHost, ship0: Ship, knotPos: Vec3, animalWorldPos: Vec3)
  {
    !Resolution(h, ship0, knotPos, animalWorldPos).ok
  }

  /**
   * resolveAnchorWorld: the two candidates through a running best. The
   * "no candidate" and "non-finite distance" exits cannot be taken: the
   * world reading always exists and every distance is finite.
   */
  method ResolveAnchorWorld(h: PhysicsHost, ship0: Ship, knotPos: Vec3, animalWorldPos: Vec3)
    returns (solve: AnchorSolve, clearCache: bool)
    ensures solve == Resolution(h, ship0, knotPos, animalWorldPos)
    ensures clearCache <==> ClearsCache(h, ship0, knotPos, animalWorldPos)
  {
    var best := new BestAnchor();
    best.ConsiderAnchor(h, ship0, animalWorldPos, h.shipyardToWorld(ship0, knotPos), KNOT_AS_SHIPYARD);
    best.ConsiderAnchor(h, ship0, animalWorldPos, Some(knotPos), KNOT_AS_WORLD);
    clearCache := false;
    if best.anchorWorld.None? {
      solve := AnchorSolve(false, None, Some(ship0), "no_candidate");
      return;
    }
    if best.dist.Inf? {
      solve := AnchorSolve(false, None, Some(ship0), "nan_dist");
      return;
    }
    if best.dist.r > MAX_REASONABLE_DIST {
      clearCache := true;
      solve := AnchorSolve(false, best.anchorWorld, best.shipObj, "all_bad:" + best.mode);
      return;
    }
    solve := AnchorSolve(true, best.anchorWorld, best.shipObj, best.mode);
  }

  // ---------------- one animal ----------------

  /** How one animal is handled on a tick. */
  datatype Handling =
    | Skip                                                /** not reined, not leashed to a ship, not leashed, or no ship at the knot */
    | CleanupLeash                                        /** the leash holder is not a fence knot */
    | BadAnchor(ship0: Ship)                              /** no plausible anchor */
    | TooClose                                            /** the animal stands on the anchor */
    | Act(step: Step, ship: Ship, dir: Vec3, anchor: Vec3) /** a force decision */

  /** The owner's control record, when the owner has sent input within the last CONTROL_GRACE_TICKS ticks. */
  function OwnerControl(controls: ServerControlState, rec: ReinedState, nowTick: int): (r: Option<Control>)
    reads controls
    ensures r.Some? ==> rec.owner.Some? && r == controls.GetRecent(rec.owner.value, nowTick, CONTROL_GRACE_TICKS)
    ensures rec.owner.Some? ==> r == controls.GetRecent(rec.owner.value, nowTick, CONTROL_GRACE_TICKS)
  {
    if rec.owner.None? then None else controls.GetRecent(rec.owner.value, nowTick, CONTROL_GRACE_TICKS)
  }

  /**
   * The handling of animal `a`, whose reins record is `rec` and whose stored
   * pull force is `prev`, on server tick `nowTick`.
   */
  function Handle(h: PhysicsHost, nowTick: int, controls: ServerControlState, a: AnimalView, rec: ReinedState,
                  prev: Option<real>): (r: Handling)
    reads controls
    ensures r.Skip? <==> !rec.hasReins || !rec.leashedToShip || !a.leashed
                         || (a.knotPos.Some? && h.shipManaging(a.knotPos.value).None?)
    ensures r.CleanupLeash? <==> rec.hasReins && rec.leashedToShip && a.leashed && a.knotPos.None?
    ensures r.BadAnchor? ==> a.knotPos.Some? && h.shipManaging(a.knotPos.value) == Some(r.ship0)
    ensures rec.hasReins && rec.leashedToShip && a.leashed && a.knotPos.Some? && h.shipManaging(a.knotPos.value).Some? ==>
      var solved := Resolution(h, h.shipManaging(a.knotPos.value).value, a.knotPos.value,
                               Vec3(a.pos.x, a.knotPos.value.y, a.pos.z));
      && (r.BadAnchor? <==> !solved.ok)
      && (r.TooClose? <==> solved.ok && HorizDist(h.sqrt, a.pos, solved.anchorWorld.value) < MIN_DIST)
      && (r.Act? <==> solved.ok && HorizDist(h.sqrt, a.pos, solved.anchorWorld.value) >= MIN_DIST)
    ensures r.Act? ==>
      && a.knotPos.Some?
      && var solved := Resolution(h, h.shipManaging(a.knotPos.value).value, a.knotPos.value,
                                  Vec3(a.pos.x, a.knotPos.value.y, a.pos.z));
      && solved.ok && solved.anchorWorld == Some(r.anchor) && solved.shipObj == Some(r.ship)
      && HorizDist(h.sqrt, a.pos, r.anchor) >= MIN_DIST
      && r.dir == RopeDir(h.sqrt, a.pos, r.anchor)
      && 0.0 <= r.step.Stored() <= MAX_FORCE
      && (r.step.StopStep? <==> StopIntent(h.sqrt, OwnerControl(controls, rec, nowTick)))
      && r.step == Decide(h.sqrt, h.pow, HorizDist(h.sqrt, a.pos, r.anchor), r.dir, OwnerControl(controls, rec, nowTick),
                          a.vel, h.velocity(r.ship), h.mass(r.ship), prev)
  {
    if !rec.hasReins || !rec.leashedToShip || !a.leashed then Skip
    else if a.knotPos.None? then CleanupLeash
    else
      var knotPos := a.knotPos.value;
      var ship0 := h.shipManaging(knotPos);
      if ship0.None? then Skip
      else
        var solved := Resolution(h, ship0.value, knotPos, Vec3(a.pos.x, knotPos.y, a.pos.z));
        if !solved.ok then BadAnchor(ship0.value)
        else
          var anchor := solved.anchorWorld.value;
          var ship := solved.shipObj.value;
          var dist := HorizDist(h.sqrt, a.pos, anchor);
          if dist < MIN_DIST then TooClose
          else
            var dir := RopeDir(h.sqrt, a.pos, anchor);
            var ctl := OwnerControl(controls, rec, nowTick);
            Act(Decide(h.sqrt, h.pow, dist, dir, ctl, a.vel, h.velocity(ship), h.mass(ship), prev), ship, dir, anchor)
  }

  /** The horizontal unit vector from the anchor toward the animal. */
  function RopeDir(sqrt: real -> real, animalPos: Vec3, anchor: Vec3): Vec3
    requires HorizDist(sqrt, animalPos, anchor) > 0.0
  {
    Scale(Horizontal(Sub(animalPos, anchor)), 1.0 / HorizDist(sqrt, animalPos, anchor))
  }

  /** The rope direction is horizontal, of length 1, on the anchor-animal line and pointing at the animal. */
  lemma RopeDirIsUnit(sqrt: real -> real, animalPos: Vec3, anchor: Vec3)
    requires IsSqrt(sqrt) && HorizDist(sqrt, animalPos, anchor) > 0.0
    ensures var dir := RopeDir(sqrt, animalPos, anchor);
            var d := Sub(animalPos, anchor);
            && dir.y == 0.0 && HorizSq(dir) == 1.0
            && dir.x * d.z == dir.z * d.x
            && dir.x * d.x + dir.z * d.z > 0.0
  {
    var d := Sub(animalPos, anchor);
    var dist := HorizDist(sqrt, animalPos, anchor);
    assert dist * dist == d.x * d.x + d.z * d.z;
    ScaledOffset(d.x, d.z, dist, 1.0);
  }

  /**
   * The force requests of an acting animal: stop-intent and BRAKE push at
   * the centre of mass, against the ship's horizontal velocity and against
   * the rope direction respectively; HOLD asks for nothing; PULL pulls along
   * the rope direction at the anchor, only with a positive magnitude.
   */
  function EffectsOf(step: Step, ship: Ship, dir: Vec3, anchor: Vec3): (effects: seq<Effect>)
    ensures step.HoldStep? ==> effects == []
    ensures step.StopStep? ==> effects == if step.force.Some? then [ApplyForce(ForceCall(ship, step.force.value, None))] else []
    ensures step.BrakeStep? ==> effects == [ApplyForce(ForceCall(ship, Scale(dir, -step.mag), None))]
    ensures step.PullStep? ==> effects == if step.mag > 0.0 then [ApplyForce(ForceCall(ship, Scale(dir, step.mag), Some(anchor)))] else []
  {
    match step
    case StopStep(force) => if force.Some? then [ApplyForce(ForceCall(ship, force.value, None))] else []
    case BrakeStep(mag) => [ApplyForce(ForceCall(ship, Scale(dir, -mag), None))]
    case HoldStep => []
    case PullStep(mag) => if mag > 0.0 then [ApplyForce(ForceCall(ship, Scale(dir, mag), Some(anchor)))] else []
  }

  /** The stored entry of `u` in a map, if any. */
  function Entry<V>(m: map<Uuid, V>, u: Uuid): Option<V>
  {
    if u in m then Some(m[u]) else None
  }

  /**
   * maybeWarnBadAnchor's bookkeeping: the tick is recorded only when at
   * least BAD_ANCHOR_INTERVAL ticks (32-bit difference) have passed since the
   * last record for the animal, or there is none.
   */
  function WarnUpdate(m: map<Uuid, int>, id: Uuid, now: int): (r: map<Uuid, int>)
    ensures r == m || r == m[id := now]
    ensures r == m[id := now] <==>
      ((id !in m && WrapInt32(now - NO_BAD_ANCHOR_TICK) >= BAD_ANCHOR_INTERVAL)
       || (id in m && (m[id] == now || WrapInt32(now - m[id]) >= BAD_ANCHOR_INTERVAL)))
  {
    var last := if id in m then m[id] else NO_BAD_ANCHOR_TICK;
    if WrapInt32(now - last) < BAD_ANCHOR_INTERVAL then m else m[id := now]
  }

  /** Within BAD_ANCHOR_INTERVAL ticks of a record, no new one is made. */
  lemma {:induction false} WarnThrottled(m: map<Uuid, int>, id: Uuid, t: int, later: int)
    requires id in m && m[id] == t
    requires t <= later < t + BAD_ANCHOR_INTERVAL
    ensures WarnUpdate(m, id, later) == m
  {
    assert WrapInt32(later - t) == later - t;
  }

  /** The animals of all players' scans, in loop order; an animal near two players appears twice. */
  function Scanned(players: seq<PlayerView>): (r: seq<AnimalView>)
  {
    if players == [] then [] else Scanned(players[..|players| - 1]) + players[|players| - 1].nearby
  }

  lemma ScannedSnoc(players: seq<PlayerView>, i: nat)
    requires i < |players|
    ensures Scanned(players[..i + 1]) == Scanned(players[..i]) + players[i].nearby
  {
    assert players[..i + 1][..i] == players[..i];
  }

  lemma ScannedPrefix(players: seq<PlayerView>, n: nat)
    requires n <= |players|
    ensures forall a :: a in Scanned(players[..n]) ==> a in Scanned(players)
    decreases |players| - n
  {
    if n == |players| {
      assert players[..n] == players;
    } else {
      ScannedPrefix(players, n + 1);
      ScannedSnoc(players, n);
    }
  }

  /** The entity ids of a list of animals. */
  function IdsOf(animals: seq<AnimalView>): set<int>
  {
    set a | a in animals :: a.entityId
  }

  /** The UUIDs of a list of animals. */
  function UuidsOf(animals: seq<AnimalView>): set<Uuid>
  {
    set a | a in animals :: a.uuid
  }

  /** Some animal of the list carries the reins record `c`. */
  predicate HeldBy(c: ReinedAnimal, animals: seq<AnimalView>)
  {
    exists a :: a in animals && a.reined == Some(c)
  }

  lemma IdsOfSnoc(animals: seq<AnimalView>)
    requires animals != []
    ensures IdsOf(animals) == IdsOf(animals[..|animals| - 1]) + {animals[|animals| - 1].entityId}
  {
    assert animals == animals[..|animals| - 1] + [animals[|animals| - 1]];
  }

  /** The ids, UUIDs and held records of two concatenated scans are those of each. */
  lemma IdsOfAppend(xs: seq<AnimalView>, ys: seq<AnimalView>)
    ensures IdsOf(xs + ys) == IdsOf(xs) + IdsOf(ys)
    ensures UuidsOf(xs + ys) == UuidsOf(xs) + UuidsOf(ys)
    ensures forall c :: HeldBy(c, xs + ys) <==> HeldBy(c, xs) || HeldBy(c, ys)
  {
    assert forall a :: a in xs + ys <==> a in xs || a in ys;
  }

  /** The loop runs on the END phase of a server level, on even server ticks only. */
  predicate TickDue(phaseEnd: bool, serverSide: bool, tickCount: int)
  {
    phaseEnd && serverSide && tickCount % 2 == 0
  }

  // ---------------- the tick as a fold ----------------

  /**
   * What one tick has produced so far: the entity ids met and their order,
   * the two per-animal maps, every reins record (keyed by the record
   * object itself, so animals sharing a record see each other's changes)
   * and the force requests.
   */
  datatype TickState = TickState(
    seen: set<int>,
    handled: seq<int>,
    pull: map<Uuid, real>,
    bad: map<Uuid, int>,
    recs: map<ReinedAnimal, ReinedState>,
    effects: seq<Effect>)

  /** The current records of a set of reins capabilities. */
  function Snap(caps: set<ReinedAnimal>): (m: map<ReinedAnimal, ReinedState>)
    reads caps
    ensures m.Keys == caps
    ensures forall c :: c in caps ==> m[c] == c.State()
  {
    map c | c in caps :: c.State()
  }

  /** What handling one animal leaves behind: both maps, its record and the force requests it issues. */
  datatype Outcome = Outcome(pull: map<Uuid, real>, bad: map<Uuid, int>, rec: ReinedState, effects: seq<Effect>)

  /**
   * The outcome of handling `hd` for the animal with UUID `u` and record
   * `rec`: cleanup clears both entries and the three leash fields, a bad
   * anchor updates the warning map and asks for the cache to be dropped, an
   * acting animal stores its pull force and issues its force requests, and
   * the rest changes nothing.
   */
  function Apply(hd: Handling, u: Uuid, playerTick: int, pull: map<Uuid, real>, bad: map<Uuid, int>,
                 rec: ReinedState): (o: Outcome)
    ensures hd.Skip? || hd.TooClose? ==> o == Outcome(pull, bad, rec, [])
    ensures forall v :: v != u ==> Entry(o.pull, v) == Entry(pull, v) && Entry(o.bad, v) == Entry(bad, v)
    ensures o.rec == rec || (hd.CleanupLeash? && !o.rec.leashedToShip && o.rec.shipFencePos.None? && o.rec.shipAnchorPos.None?
                             && o.rec.hasReins == rec.hasReins && o.rec.owner == rec.owner)
    ensures hd.Act? ==> u in o.pull && o.pull[u] == hd.step.Stored()
    ensures !hd.Act? ==> o.pull == pull || o.pull == pull - {u}
  {
    match hd
    case Skip => Outcome(pull, bad, rec, [])
    case TooClose => Outcome(pull, bad, rec, [])
    case CleanupLeash =>
      Outcome(pull - {u}, bad - {u}, rec.(leashedToShip := false, shipFencePos := None, shipAnchorPos := None), [])
    case BadAnchor(ship0) => Outcome(pull, WarnUpdate(bad, u, playerTick), rec, [ClearTransformCache(ship0)])
    case Act(step, ship, dir, anchor) => Outcome(pull[u := step.Stored()], bad, rec, EffectsOf(step, ship, dir, anchor))
  }

  /**
   * One animal of a player's scan: skipped when its entity id was met
   * before; otherwise its id is recorded and, when it carries a reins
   * record, the outcome of Handle is applied to the maps, to its record and
   * to the force requests.
   */
  function Visit(h: PhysicsHost, nowTick: int, playerTick: int, controls: ServerControlState,
                 a: AnimalView, s: TickState): (r: TickState)
    reads controls
    ensures a.entityId in s.seen ==> r == s
    ensures r.seen == s.seen + {a.entityId}
    ensures a.entityId !in s.seen ==> r.handled == s.handled + [a.entityId]
    ensures r.recs.Keys == s.recs.Keys
    ensures forall c :: c in s.recs && a.reined != Some(c) ==> r.recs[c] == s.recs[c]
    ensures Entry(r.pull, a.uuid) != Entry(s.pull, a.uuid) || Entry(r.bad, a.uuid) != Entry(s.bad, a.uuid)
            ==> a.entityId !in s.seen && a.reined.Some?
    ensures forall u :: u != a.uuid ==> Entry(r.pull, u) == Entry(s.pull, u) && Entry(r.bad, u) == Entry(s.bad, u)
    ensures a.uuid in r.pull && Entry(r.pull, a.uuid) != Entry(s.pull, a.uuid) ==> 0.0 <= r.pull[a.uuid] <= MAX_FORCE
  {
    if a.entityId in s.seen then s
    else
      var s1 := s.(seen := s.seen + {a.entityId}, handled := s.handled + [a.entityId]);
      if a.reined.None? || a.reined.value !in s.recs then s1
      else
        var cap := a.reined.value;
        var rec := s.recs[cap];
        var o := Apply(Handle(h, nowTick, controls, a, rec, Entry(s.pull, a.uuid)), a.uuid, playerTick, s.pull, s.bad, rec);
        s1.(pull := o.pull, bad := o.bad, recs := s.recs[cap := o.rec], effects := s.effects + o.effects)
  }

  /** A player's scan, animal by animal. */
  function FoldAnimals(h: PhysicsHost, nowTick: int, playerTick: int, controls: ServerControlState,
                       animals: seq<AnimalView>, s: TickState): (r: TickState)
    reads controls
  {
    if animals == [] then s
    else Visit(h, nowTick, playerTick, controls, animals[|animals| - 1],
               FoldAnimals(h, nowTick, playerTick, controls, animals[..|animals| - 1], s))
  }

  /** Every player's scan, player by player, sharing one set of met entity ids. */
  function FoldPlayers(h: PhysicsHost, nowTick: int, controls: ServerControlState,
                       players: seq<PlayerView>, s: TickState): (r: TickState)
    reads controls
  {
    if players == [] then s
    else
      var last := players[|players| - 1];
      FoldAnimals(h, nowTick, last.tickCount, controls, last.nearby,
                  FoldPlayers(h, nowTick, controls, players[..|players| - 1], s))
  }

  lemma FoldAnimalsSnoc(h: PhysicsHost, nowTick: int, playerTick: int, controls: ServerControlState,
                        animals: seq<AnimalView>, j: nat, s: TickState)
    requires j < |animals|
    ensures FoldAnimals(h, nowTick, playerTick, controls, animals[..j + 1], s)
            == Visit(h, nowTick, playerTick, controls, animals[j], FoldAnimals(h, nowTick, playerTick, controls, animals[..j], s))
  {
    assert animals[..j + 1][..j] == animals[..j];
  }

  lemma FoldPlayersSnoc(h: PhysicsHost, nowTick: int, controls: ServerControlState,
                        players: seq<PlayerView>, i: nat, s: TickState)
    requires i < |players|
    ensures FoldPlayers(h, nowTick, controls, players[..i + 1], s)
            == FoldAnimals(h, nowTick, players[i].tickCount, controls, players[i].nearby, FoldPlayers(h, nowTick, controls, players[..i], s))
  {
    assert players[..i + 1][..i] == players[..i];
  }

  /**
   * The met ids grow by exactly the scanned ids, and `handled` lists each
   * of them once: every animal is handled at most once per tick.
   */
  lemma {:induction false} FoldAnimalsHandlesOnce(h: PhysicsHost, nowTick: int, playerTick: int, controls: ServerControlState,
                                                  animals: seq<AnimalView>, s: TickState)
    requires forall x :: x in s.handled <==> x in s.seen
    requires forall k, l :: 0 <= k < l < |s.handled| ==> s.handled[k] != s.handled[l]
    ensures var r := FoldAnimals(h, nowTick, playerTick, controls, animals, s);
            && r.seen == s.seen + IdsOf(animals)
            && (forall x :: x in r.handled <==> x in r.seen)
            && (forall k, l :: 0 <= k < l < |r.handled| ==> r.handled[k] != r.handled[l])
  {
    if animals != [] {
      var init := animals[..|animals| - 1];
      var last := animals[|animals| - 1];
      FoldAnimalsHandlesOnce(h, nowTick, playerTick, controls, init, s);
      IdsOfSnoc(animals);
      var prior := FoldAnimals(h, nowTick, playerTick, controls, init, s);
      if last.entityId !in prior.seen {
        AppendFresh(prior.handled, last.entityId);
      }
    }
  }

  /** Over all players: each entity id of every scan is handled once. */
  lemma {:induction false} FoldPlayersHandlesOnce(h: PhysicsHost, nowTick: int, controls: ServerControlState,
                                                  players: seq<PlayerView>, s: TickState)
    requires forall x :: x in s.handled <==> x in s.seen
    requires forall k, l :: 0 <= k < l < |s.handled| ==> s.handled[k] != s.handled[l]
    ensures var r := FoldPlayers(h, nowTick, controls, players, s);
            && r.seen == s.seen + IdsOf(Scanned(players))
            && (forall x :: x in r.handled <==> x in r.seen)
            && (forall k, l :: 0 <= k < l < |r.handled| ==> r.handled[k] != r.handled[l])
  {
    if players != [] {
      var n := |players| - 1;
      FoldPlayersHandlesOnce(h, nowTick, controls, players[..n], s);
      var prior := FoldPlayers(h, nowTick, controls, players[..n], s);
      FoldAnimalsHandlesOnce(h, nowTick, players[n].tickCount, controls, players[n].nearby, prior);
      IdsOfAppend(Scanned(players[..n]), players[n].nearby);
    }
  }

  /** Over all players: only the scanned animals' entries and records change. */
  lemma {:induction false} FoldPlayersFrame(h: PhysicsHost, nowTick: int, controls: ServerControlState,
                                            players: seq<PlayerView>, s: TickState)
    ensures var r := FoldPlayers(h, nowTick, controls, players, s);
            && r.recs.Keys == s.recs.Keys
            && (forall u :: u !in UuidsOf(Scanned(players)) ==> Entry(r.pull, u) == Entry(s.pull, u) && Entry(r.bad, u) == Entry(s.bad, u))
            && (forall c :: c in s.recs && !HeldBy(c, Scanned(players)) ==> r.recs[c] == s.recs[c])
  {
    if players != [] {
      var n := |players| - 1;
      FoldPlayersFrame(h, nowTick, controls, players[..n], s);
      var prior := FoldPlayers(h, nowTick, controls, players[..n], s);
      FoldAnimalsFrame(h, nowTick, players[n].tickCount, controls, players[n].nearby, prior);
      IdsOfAppend(Scanned(players[..n]), players[n].nearby);
    }
  }

  /** Appending an id not yet listed keeps a list free of repeats. */
  lemma AppendFresh(xs: seq<int>, x: int)
    requires forall k, l :: 0 <= k < l < |xs| ==> xs[k] != xs[l]
    requires x !in xs
    ensures forall k, l :: 0 <= k < l < |xs + [x]| ==> (xs + [x])[k] != (xs + [x])[l]
  {
  }

  /** An animal whose id was already met, here or by an earlier player, changes nothing. */
  lemma {:induction false} RepeatIsIgnored(h: PhysicsHost, nowTick: int, playerTick: int, controls: ServerControlState,
                                           animals: seq<AnimalView>, a: AnimalView, s: TickState)
    requires forall x :: x in s.handled <==> x in s.seen
    requires forall k, l :: 0 <= k < l < |s.handled| ==> s.handled[k] != s.handled[l]
    requires a.entityId in s.seen + IdsOf(animals)
    ensures FoldAnimals(h, nowTick, playerTick, controls, animals + [a], s)
            == FoldAnimals(h, nowTick, playerTick, controls, animals, s)
  {
    FoldAnimalsHandlesOnce(h, nowTick, playerTick, controls, animals, s);
    assert (animals + [a])[..|animals|] == animals;
  }

  /**
   * Only the scanned animals' entries and records change: a UUID no
   * scanned animal carries keeps its entries, and a record no scanned
   * animal holds keeps its value.
   */
  lemma {:induction false} FoldAnimalsFrame(h: PhysicsHost, nowTick: int, playerTick: int, controls: ServerControlState,
                                            animals: seq<AnimalView>, s: TickState)
    ensures var r := FoldAnimals(h, nowTick, playerTick, controls, animals, s);
            && r.recs.Keys == s.recs.Keys
            && (forall u :: u !in UuidsOf(animals) ==> Entry(r.pull, u) == Entry(s.pull, u) && Entry(r.bad, u) == Entry(s.bad, u))
            && (forall c :: c in s.recs && !HeldBy(c, animals) ==> r.recs[c] == s.recs[c])
  {
    if animals != [] {
      var init := animals[..|animals| - 1];
      var last := animals[|animals| - 1];
      FoldAnimalsFrame(h, nowTick, playerTick, controls, init, s);
      assert animals == init + [last];
      assert UuidsOf(animals) == UuidsOf(init) + {last.uuid};
    }
  }

  /** Every stored pull force lies in [0, MAX_FORCE]. */
  predicate PullInRange(pull: map<Uuid, real>)
  {
    forall u :: u in pull ==> 0.0 <= pull[u] <= MAX_FORCE
  }

  /** The stored pull forces stay in [0, MAX_FORCE] through a scan. */
  lemma {:induction false} FoldAnimalsBounded(h: PhysicsHost, nowTick: int, playerTick: int, controls: ServerControlState,
                                              animals: seq<AnimalView>, s: TickState)
    requires PullInRange(s.pull)
    ensures PullInRange(FoldAnimals(h, nowTick, playerTick, controls, animals, s).pull)
  {
    if animals != [] {
      var last := animals[|animals| - 1];
      var prior := FoldAnimals(h, nowTick, playerTick, controls, animals[..|animals| - 1], s);
      FoldAnimalsBounded(h, nowTick, playerTick, controls, animals[..|animals| - 1], s);
      var r := Visit(h, nowTick, playerTick, controls, last, prior);
      forall u | u in r.pull
        ensures 0.0 <= r.pull[u] <= MAX_FORCE
      {
        if u != last.uuid || Entry(r.pull, u) == Entry(prior.pull, u) {
          assert Entry(r.pull, u) == Entry(prior.pull, u);
        }
      }
    }
  }

  class LeashPhysics {
    /** LAST_PULL_FORCE: the pull force last stored for each animal. */
    var lastPullForce: map<Uuid, real>
    /** LAST_BAD_ANCHOR_TICK: the player tick of the last bad-anchor record for each animal. */
    var lastBadAnchorTick: map<Uuid, int>

    /** Every stored pull force lies in [0, MAX_FORCE]. */
    predicate Valid()
      reads this
    {
      PullInRange(lastPullForce)
    }

    constructor ()
      ensures Valid() && lastPullForce == map[] && lastBadAnchorTick == map[]
    {
      lastPullForce := map[];
      lastBadAnchorTick := map[];
    }

    method MaybeWarnBadAnchor(animalId: Uuid, playerTick: int)
      modifies this
      ensures lastBadAnchorTick == WarnUpdate(old(lastBadAnchorTick), animalId, playerTick)
      ensures lastPullForce == old(lastPullForce)
    {
      var last := if animalId in lastBadAnchorTick then lastBadAnchorTick[animalId] else NO_BAD_ANCHOR_TICK;
      if WrapInt32(playerTick - last) < BAD_ANCHOR_INTERVAL { return; }
      lastBadAnchorTick := lastBadAnchorTick[animalId := playerTick];
    }

    /**
     * cleanup: both entries of the animal go, and its record no longer says
     * it is leashed to a ship; reins and owner stay.
     */
    method Cleanup(id: Uuid, cap: Option<ReinedAnimal>)
      modifies this, if cap.Some? then {cap.value} else {}
      ensures lastPullForce == old(lastPullForce) - {id}
      ensures lastBadAnchorTick == old(lastBadAnchorTick) - {id}
      ensures cap.Some? ==>
        cap.value.State() == old(cap.value.State()).(leashedToShip := false, shipFencePos := None, shipAnchorPos := None)
    {
      lastPullForce := lastPullForce - {id};
      lastBadAnchorTick := lastBadAnchorTick - {id};
      if cap.Some? {
        cap.value.SetLeashedToShip(false);
        cap.value.SetShipFencePos(None);
        cap.value.SetShipAnchorPos(None);
      }
    }

    /**
     * The body of onLevelTick for one animal found near `player`: the
     * stored maps, the animal's record and the force requests follow Handle.
     */
    method ControlAnimal(h: PhysicsHost, nowTick: int, player: PlayerView, a: AnimalView, controls: ServerControlState)
      returns (effects: seq<Effect>)
      requires Valid()
      modifies this, if a.reined.Some? then {a.reined.value} else {}
      ensures Valid()
      ensures a.reined.None? ==>
        effects == [] && lastPullForce == old(lastPullForce) && lastBadAnchorTick == old(lastBadAnchorTick)
      ensures a.reined.Some? ==>
        Outcome(lastPullForce, lastBadAnchorTick, a.reined.value.State(), effects)
        == Apply(Handle(h, nowTick, controls, a, old(a.reined.value.State()), old(Entry(lastPullForce, a.uuid))),
                 a.uuid, player.tickCount, old(lastPullForce), old(lastBadAnchorTick), old(a.reined.value.State()))
      ensures a.reined.Some? ==>
        var hd := Handle(h, nowTick, controls, a, old(a.reined.value.State()), old(Entry(lastPullForce, a.uuid)));
        && (hd.CleanupLeash? ==>
              && effects == []
              && lastPullForce == old(lastPullForce) - {a.uuid}
              && lastBadAnchorTick == old(lastBadAnchorTick) - {a.uuid}
              && a.reined.value.State()
                 == old(a.reined.value.State()).(leashedToShip := false, shipFencePos := None, shipAnchorPos := None))
        && (!hd.CleanupLeash? ==> a.reined.value.State() == old(a.reined.value.State()))
        && (hd.Skip? || hd.TooClose? ==>
              effects == [] && lastPullForce == old(lastPullForce) && lastBadAnchorTick == old(lastBadAnchorTick))
        && (hd.BadAnchor? ==>
              && effects == [ClearTransformCache(hd.ship0)]
              && lastPullForce == old(lastPullForce)
              && lastBadAnchorTick == WarnUpdate(old(lastBadAnchorTick), a.uuid, player.tickCount))
        && (hd.Act? ==>
              && effects == EffectsOf(hd.step, hd.ship, hd.dir, hd.anchor)
              && lastPullForce == old(lastPullForce)[a.uuid := hd.step.Stored()]
              && lastBadAnchorTick == old(lastBadAnchorTick))
    {
      effects := [];
      if a.reined.None? { return; }
      var cap := a.reined.value;
      if !cap.hasReins { return; }
      if !cap.leashedToShip { return; }
      if !a.leashed { return; }
      if a.knotPos.None? {
        Cleanup(a.uuid, a.reined);
        return;
      }
      var knotPos := a.knotPos.value;
      var animalPosStable := Vec3(a.pos.x, knotPos.y, a.pos.z);
      var ship0 := h.shipManaging(knotPos);
      if ship0.None? { return; }
      var solved, clearCache := ResolveAnchorWorld(h, ship0.value, knotPos, animalPosStable);
      if clearCache {
        effects := effects + [ClearTransformCache(ship0.value)];
      }
      if !solved.ok || solved.anchorWorld.None? {
        MaybeWarnBadAnchor(a.uuid, player.tickCount);
        return;
      }
      var anchorWorld := solved.anchorWorld.value;
      var ship := solved.shipObj.value;
      var dist := HorizDist(h.sqrt, a.pos, anchorWorld);
      if dist < MIN_DIST { return; }
      var dir := RopeDir(h.sqrt, a.pos, anchorWorld);
      var ctl := if cap.owner.None? then None else controls.GetRecent(cap.owner.value, nowTick, CONTROL_GRACE_TICKS);
      var prev := Entry(lastPullForce, a.uuid);
      var step := Decide(h.sqrt, h.pow, dist, dir, ctl, a.vel, h.velocity(ship), h.mass(ship), prev);
      lastPullForce := lastPullForce[a.uuid := step.Stored()];
      effects := EffectsOf(step, ship, dir, anchorWorld);
    }

    /**
     * The inner loop of onLevelTick for one player: each nearby animal whose
     * entity id is not yet in `seen` is recorded and handled; the others are
     * skipped. The maps, the records and the force requests end as the fold
     * of Visit over the player's scan says; only the scanned animals'
     * entries and records change.
     */
    method ScanNearby(h: PhysicsHost, nowTick: int, player: PlayerView, controls: ServerControlState,
                      caps: set<ReinedAnimal>, ghost before: seq<AnimalView>, seen0: set<int>, handled0: seq<int>,
                      effects0: seq<Effect>)
      returns (seen: set<int>, handled: seq<int>, effects: seq<Effect>)
      requires Valid()
      requires seen0 == IdsOf(before)
      requires forall x :: x in handled0 <==> x in seen0
      requires forall k, l :: 0 <= k < l < |handled0| ==> handled0[k] != handled0[l]
      requires forall a :: a in player.nearby && a.reined.Some? ==> a.reined.value in caps
      modifies this, caps
      ensures Valid()
      ensures var f := FoldAnimals(h, nowTick, player.tickCount, controls, player.nearby,
                                   TickState(seen0, handled0, old(lastPullForce), old(lastBadAnchorTick), old(Snap(caps)), effects0));
              && seen == f.seen && handled == f.handled && effects == f.effects
              && lastPullForce == f.pull && lastBadAnchorTick == f.bad && Snap(caps) == f.recs
      ensures seen == IdsOf(before + player.nearby)
      ensures forall x :: x in handled <==> x in seen
      ensures forall k, l :: 0 <= k < l < |handled| ==> handled[k] != handled[l]
      ensures forall u :: u !in UuidsOf(player.nearby) ==>
        Entry(lastPullForce, u) == Entry(old(lastPullForce), u) && Entry(lastBadAnchorTick, u) == Entry(old(lastBadAnchorTick), u)
      ensures forall c :: c in caps && !HeldBy(c, player.nearby) ==> c.State() == old(c.State())
    {
      ghost var s0 := TickState(seen0, handled0, lastPullForce, lastBadAnchorTick, Snap(caps), effects0);
      seen, handled, effects := seen0, handled0, effects0;
      var j := 0;
      while j < |player.nearby|
        invariant 0 <= j <= |player.nearby|
        invariant Valid()
        invariant TickState(seen, handled, lastPullForce, lastBadAnchorTick, Snap(caps), effects)
                  == FoldAnimals(h, nowTick, player.tickCount, controls, player.nearby[..j], s0)
      {
        var animal := player.nearby[j];
        FoldAnimalsSnoc(h, nowTick, player.tickCount, controls, player.nearby, j, s0);
        if animal.entityId !in seen {
          ghost var pre := TickState(seen, handled, lastPullForce, lastBadAnchorTick, Snap(caps), effects);
          seen := seen + {animal.entityId};
          handled := handled + [animal.entityId];
          var out := HandleOne(h, nowTick, player, animal, controls, caps, pre);
          effects := effects + out;
        }
        j := j + 1;
      }
      assert player.nearby[..j] == player.nearby;
      FoldAnimalsHandlesOnce(h, nowTick, player.tickCount, controls, player.nearby, s0);
      FoldAnimalsFrame(h, nowTick, player.tickCount, controls, player.nearby, s0);
      assert IdsOf(before + player.nearby) == IdsOf(before) + IdsOf(player.nearby);
    }

    /**
     * ControlAnimal seen from the fold: the maps, the snapshot of every
     * record and the new force requests are those of Visit on an animal
     * met for the first time.
     */
    method HandleOne(h: PhysicsHost, nowTick: int, player: PlayerView, a: AnimalView, controls: ServerControlState,
                     caps: set<ReinedAnimal>, ghost s: TickState)
      returns (effects: seq<Effect>)
      requires Valid()
      requires a.reined.Some? ==> a.reined.value in caps
      requires a.entityId !in s.seen
      requires s.pull == lastPullForce && s.bad == lastBadAnchorTick && s.recs == Snap(caps)
      modifies this, caps
      ensures Valid()
      ensures Visit(h, nowTick, player.tickCount, controls, a, s)
              == TickState(s.seen + {a.entityId}, s.handled + [a.entityId], lastPullForce, lastBadAnchorTick,
                           Snap(caps), s.effects + effects)
    {
      effects := ControlAnimal(h, nowTick, player, a, controls);
      SnapAfterControl(a, caps, s.recs);
    }

    /** After ControlAnimal, only the handled animal's record differs from the snapshot. */
    lemma SnapAfterControl(a: AnimalView, caps: set<ReinedAnimal>, before: map<ReinedAnimal, ReinedState>)
      requires a.reined.Some? ==> a.reined.value in caps
      requires forall c :: c in caps && a.reined != Some(c) ==> c in before && c.State() == before[c]
      requires before.Keys == caps
      ensures a.reined.Some? ==> Snap(caps) == before[a.reined.value := a.reined.value.State()]
      ensures a.reined.None? ==> Snap(caps) == before
    {
    }

    /**
     * onLevelTick: on a due tick, the players' scans are folded with Visit,
     * so every animal is handled once, the first time its entity id is met.
     * The stored pull forces stay in [0, MAX_FORCE], and only entries and
     * records of scanned animals change.
     */
    method OnLevelTick(h: PhysicsHost, phaseEnd: bool, serverSide: bool, tickCount: int, players: seq<PlayerView>,
                       controls: ServerControlState, caps: set<ReinedAnimal>)
      returns (effects: seq<Effect>, handled: seq<int>)
      requires Valid()
      requires forall a :: a in Scanned(players) && a.reined.Some? ==> a.reined.value in caps
      modifies this, caps
      ensures Valid()
      ensures !TickDue(phaseEnd, serverSide, tickCount) ==>
        && effects == [] && handled == [] && lastPullForce == old(lastPullForce) && lastBadAnchorTick == old(lastBadAnchorTick)
        && Snap(caps) == old(Snap(caps))
      ensures TickDue(phaseEnd, serverSide, tickCount) ==>
        var f := FoldPlayers(h, tickCount, controls, players,
                             TickState({}, [], old(lastPullForce), old(lastBadAnchorTick), old(Snap(caps)), []));
        && handled == f.handled && effects == f.effects
        && lastPullForce == f.pull && lastBadAnchorTick == f.bad && Snap(caps) == f.recs
      ensures TickDue(phaseEnd, serverSide, tickCount) ==> forall x :: x in handled <==> x in IdsOf(Scanned(players))
      ensures forall k, l :: 0 <= k < l < |handled| ==> handled[k] != handled[l]
      ensures forall u :: u !in UuidsOf(Scanned(players)) ==>
        Entry(lastPullForce, u) == Entry(old(lastPullForce), u) && Entry(lastBadAnchorTick, u) == Entry(old(lastBadAnchorTick), u)
      ensures forall c :: c in caps && !HeldBy(c, Scanned(players)) ==> c.State() == old(c.State())
    {
      effects := [];
      handled := [];
      if !phaseEnd || !serverSide { return; }
      if tickCount % 2 != 0 { return; }
      var nowTick := tickCount;
      var seen: set<int> := {};
      ghost var s0 := TickState({}, [], lastPullForce, lastBadAnchorTick, Snap(caps), []);
      var i := 0;
      while i < |players|
        invariant 0 <= i <= |players|
        invariant Valid()
        invariant TickState(seen, handled, lastPullForce, lastBadAnchorTick, Snap(caps), effects)
                  == FoldPlayers(h, nowTick, controls, players[..i], s0)
      {
        ScannedSnoc(players, i);
        ScannedPrefix(players, i + 1);
        FoldPlayersSnoc(h, nowTick, controls, players, i, s0);
        FoldPlayersHandlesOnce(h, nowTick, controls, players[..i], s0);
        seen, handled, effects := ScanNearby(h, nowTick, players[i], controls, caps, Scanned(players[..i]), seen, handled, effects);
        i := i + 1;
      }
      assert players[..i] == players;
      FoldPlayersHandlesOnce(h, nowTick, controls, players, s0);
      FoldPlayersFrame(h, nowTick, controls, players, s0);
    }
  }
}
