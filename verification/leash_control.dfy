/**
 * The force decision of the ship-leash controller (ShipLeashPhysicsTick.java,
 * the body of onLevelTick once the anchor is known): commanded speed from
 * the owner's input, the stop-intent brake, the BRAKE / HOLD / PULL choice on
 * a hysteresis band around the allowed along-rope speed, and the smoothed,
 * rate-limited pull force.
 */
module LeashControl {
  import opened Wrappers
  import opened Geometry
  import opened ControlState

  const SLACK := 2.5
  const PLAYER_SLACK := 0.25
  const SPRING := 2800.0
  const DAMPING := 280.0
  const BASE_INTENT_FORCE_PER_TON := 30000.0
  const INTENT_FORCE_MASS_EXPONENT := 0.75
  const MAX_INTENT_FORCE := 8000000.0
  const MIN_INTENT_FORCE := 5000.0
  const FORCE_SMOOTHING := 0.75
  const MIN_FORCE_MASS_MULT := 2.0
  const FORCE_RATE_LIMIT_MULT_LIGHT := 400.0
  const FORCE_RATE_LIMIT_MULT_HEAVY := 220.0
  const VELOCITY_EPS := 0.015
  const SPEED_HYST := 0.05
  const BRAKE_GAIN := 1.25
  const MAX_FORCE := 1000000.0
  const CMD_WALK_SPEED := 0.20
  const CMD_SPRINT_MULT := 1.80
  const INPUT_MAG_EPS := 0.05
  const SEC_PER_TICK := 1.0 / 20.0
  /** The stop-intent brake's own gain and cap, local to its branch. */
  const STOP_VEL_GAIN := 6.0
  const STOP_MAX_FORCE_LOCAL := 2500000.0
  const STOP_SPEED_MIN := 0.02
  /** The mass used when the ship reports none. */
  const DEFAULT_MASS := 20000.0
  const HEAVY_MASS := 80000.0

  /** The stick deflection of the owner's input, at most 1. */
  function InputMag(sqrt: real -> real, c: Control): (m: real)
    ensures m <= 1.0
    ensures IsSqrt(sqrt) ==> 0.0 <= m
  {
    var raw := sqrt(c.forward * c.forward + c.strafe * c.strafe);
    if raw > 1.0 then 1.0 else raw
  }

  /** The speed the owner commands, in blocks per tick: walk speed, times 1.8 when sprinting, times the deflection. */
  function CommandedSpeed(sqrt: real -> real, ctl: Option<Control>): (s: real)
    ensures ctl.None? ==> s == 0.0
    ensures ctl.Some? ==> s == CMD_WALK_SPEED * (if ctl.value.sprint then CMD_SPRINT_MULT else 1.0) * InputMag(sqrt, ctl.value)
  {
    if ctl.None? then 0.0
    else CMD_WALK_SPEED * (if ctl.value.sprint then CMD_SPRINT_MULT else 1.0) * InputMag(sqrt, ctl.value)
  }

  /** The owner is steering: recent input with a deflection above the noise guard. */
  predicate HasInput(sqrt: real -> real, ctl: Option<Control>)
  {
    ctl.Some? && InputMag(sqrt, ctl.value) > INPUT_MAG_EPS
  }

  /** The owner is controlling but has let go of the stick. */
  predicate StopIntent(sqrt: real -> real, ctl: Option<Control>)
  {
    ctl.Some? && !HasInput(sqrt, ctl)
  }

  /** Rope slack: short while the owner controls the animal, long otherwise. */
  function Slack(controlled: bool): real
  {
    if controlled then PLAYER_SLACK else SLACK
  }

  /** The ship mass to work with: a non-positive reading becomes DEFAULT_MASS. */
  function EffectiveMass(raw: real): (m: real)
    ensures m > 0.0
    ensures raw > 0.0 ==> m == raw
    ensures raw <= 0.0 ==> m == DEFAULT_MASS
  {
    if raw <= 0.0 then DEFAULT_MASS else raw
  }

  function Max(a: real, b: real): real { if a >= b then a else b }
  function Min(a: real, b: real): real { if a <= b then a else b }

  /**
   * The along-rope ship speed allowed before braking: the animal's own
   * forward speed (and, when controlled, the commanded speed), never
   * negative, plus VELOCITY_EPS.
   */
  function AllowedAlong(controlled: bool, commanded: real, animalSpeedAlong: real): (a: real)
    ensures a >= VELOCITY_EPS
    ensures a >= animalSpeedAlong + VELOCITY_EPS
    ensures controlled ==> a >= commanded + VELOCITY_EPS
    ensures a == VELOCITY_EPS || a == animalSpeedAlong + VELOCITY_EPS || (controlled && a == commanded + VELOCITY_EPS)
  {
    var base := if controlled then Max(commanded, Max(0.0, animalSpeedAlong)) else Max(0.0, animalSpeedAlong);
    base + VELOCITY_EPS
  }

  function Hi(allowed: real): real { allowed + SPEED_HYST }

  function Lo(allowed: real): real { Max(0.0, allowed - SPEED_HYST) }

  datatype Mode = BrakeMode | HoldMode | PullMode

  /**
   * The hysteresis band: brake above hi, hold between lo and hi (both ends
   * included), pull below lo.
   */
  function ModeOf(shipSpeedAlong: real, allowed: real): (m: Mode)
    requires allowed >= 0.0
    ensures m == BrakeMode <==> shipSpeedAlong > Hi(allowed)
    ensures m == HoldMode <==> Lo(allowed) <= shipSpeedAlong <= Hi(allowed)
    ensures m == PullMode <==> shipSpeedAlong < Lo(allowed)
  {
    if shipSpeedAlong > Hi(allowed) then BrakeMode
    else if shipSpeedAlong >= Lo(allowed) then HoldMode
    else PullMode
  }

  /** The BRAKE magnitude: proportional to the excess speed and the mass, capped at MAX_FORCE. */
  function BrakeMagnitude(shipSpeedAlong: real, allowed: real, mass: real): (m: real)
    requires shipSpeedAlong > Hi(allowed) && mass > 0.0
    ensures 0.0 < m <= MAX_FORCE
  {
    var excess := shipSpeedAlong - allowed;
    MulPos(excess, mass * BRAKE_GAIN);
    Min(excess * (mass * BRAKE_GAIN), MAX_FORCE)
  }

  /** The pull intent: the commanded speed, raised to 0.12 when it is below 0.08 and the ship is slow. */
  function Intent(commanded: real, shipSpeedAlong: real): (i: real)
    ensures i >= 0.0 && i >= commanded
    ensures commanded < 0.08 && shipSpeedAlong < 0.15 ==> i >= 0.12
    ensures !(commanded < 0.08 && shipSpeedAlong < 0.15) ==> i == Max(0.0, commanded)
  {
    var intent := Max(0.0, commanded);
    if intent < 0.08 && shipSpeedAlong < 0.15 then Max(intent, 0.12) else intent
  }

  /** The intent force: base force per ton times pow(tons, 0.75), clamped to [MIN_INTENT_FORCE, MAX_INTENT_FORCE]. */
  function IntentForce(pow: (real, real) -> real, intent: real, mass: real): (f: real)
    ensures MIN_INTENT_FORCE <= f <= MAX_INTENT_FORCE
  {
    var intentBase := intent * BASE_INTENT_FORCE_PER_TON;
    var massFactor := pow(mass / 1000.0, INTENT_FORCE_MASS_EXPONENT);
    Min(MAX_INTENT_FORCE, Max(MIN_INTENT_FORCE, intentBase * massFactor))
  }

  /**
   * The PULL target force. With input: intent force plus a stiff stretch
   * term, at least max(1, 2 * mass). Without input: the spring-damper of
   * the stretch and the animal's speed along the rope, only while the rope
   * is stretched.
   */
  function PullTarget(pow: (real, real) -> real, hasInput: bool, commanded: real, shipSpeedAlong: real,
                      stretch: real, relVel: real, mass: real): (t: real)
    ensures t >= 0.0
    ensures hasInput && Intent(commanded, shipSpeedAlong) > 0.01 ==>
      t >= Max(1.0, mass * MIN_FORCE_MASS_MULT) && t >= MIN_INTENT_FORCE
    ensures !hasInput && stretch <= 0.0 ==> t == 0.0
    ensures !hasInput && stretch > 0.0 ==> t == Max(stretch * SPRING + relVel * DAMPING, 0.0)
  {
    var minForce := Max(1.0, mass * MIN_FORCE_MASS_MULT);
    if hasInput then
      var intent := Intent(commanded, shipSpeedAlong);
      if intent > 0.01 then
        var stretchForce := Max(0.0, stretch) * SPRING * 6.0;
        Max(IntentForce(pow, intent, mass) + stretchForce, minForce)
      else 0.0
    else if stretch > 0.0 then Max(stretch * SPRING + relVel * DAMPING, 0.0)
    else 0.0
  }

  /** With input, the intent is always above 0.01, so the intent branch always produces a force. */
  lemma IntentAlwaysEffective(sqrt: real -> real, ctl: Option<Control>, shipSpeedAlong: real)
    requires HasInput(sqrt, ctl)
    ensures Intent(CommandedSpeed(sqrt, ctl), shipSpeedAlong) > 0.01
  {
    var m := InputMag(sqrt, ctl.value);
    if ctl.value.sprint {
      assert CommandedSpeed(sqrt, ctl) == 0.36 * m;
    } else {
      assert CommandedSpeed(sqrt, ctl) == 0.2 * m;
    }
  }

  /** The largest change of the stored pull force in one tick: mass times 400 for light ships, 220 for heavy ones. */
  function MaxDelta(mass: real): real
  {
    mass * (if mass < HEAVY_MASS then FORCE_RATE_LIMIT_MULT_LIGHT else FORCE_RATE_LIMIT_MULT_HEAVY)
  }

  /**
   * The applied pull magnitude: 75% of the way from the previous one toward
   * the target, the step rate-limited, and the result kept in [0, MAX_FORCE].
   */
  function SmoothedForce(prev: real, target: real, mass: real): (f: real)
    ensures 0.0 <= f <= MAX_FORCE
    ensures 0.0 <= prev <= MAX_FORCE && mass >= 0.0 ==>
      && prev - MaxDelta(mass) <= f <= prev + MaxDelta(mass)
      && (prev <= target ==> prev <= f <= target)
      && (target <= prev ==> Max(target, 0.0) <= f <= prev)
  {
    var smoothed := prev + (target - prev) * FORCE_SMOOTHING;
    var maxDelta := MaxDelta(mass);
    var df := Max(-maxDelta, Min(maxDelta, smoothed - prev));
    Min(MAX_FORCE, Max(0.0, prev + df))
  }

  /** With no stored force the previous value is the target itself, and the applied force is the target clamped. */
  lemma FirstPullIsTarget(target: real, mass: real)
    requires mass >= 0.0
    ensures SmoothedForce(target, target, mass) == Min(MAX_FORCE, Max(0.0, target))
  {
  }

  /**
   * The stop-intent brake: when the ship moves horizontally faster than
   * 0.02, a force against its horizontal velocity of magnitude
   * min(mass * speed * 6, 2.5e6); otherwise none.
   */
  function StopBrake(sqrt: real -> real, shipVel: Vec3, mass: real): (r: Option<Vec3>)
    ensures r.Some? <==> HorizLength(sqrt, shipVel) > STOP_SPEED_MIN
    ensures r.Some? ==> r.value.y == 0.0
  {
    var vXZ := Horizontal(shipVel);
    var speed := HorizLength(sqrt, shipVel);
    if speed > STOP_SPEED_MIN then
      var dirBrake := Scale(vXZ, 1.0 / speed);
      var brakeMag := Min(mass * speed * STOP_VEL_GAIN, STOP_MAX_FORCE_LOCAL);
      Some(Scale(dirBrake, -brakeMag))
    else None
  }

  /** The stop-intent brake's magnitude. */
  function StopBrakeMagnitude(sqrt: real -> real, shipVel: Vec3, mass: real): (m: real)
    requires mass > 0.0 && HorizLength(sqrt, shipVel) > STOP_SPEED_MIN
    ensures 0.0 < m <= STOP_MAX_FORCE_LOCAL
  {
    var speed := HorizLength(sqrt, shipVel);
    MulPos(mass, speed * STOP_VEL_GAIN);
    assert mass * speed * STOP_VEL_GAIN == mass * (speed * STOP_VEL_GAIN);
    Min(mass * speed * STOP_VEL_GAIN, STOP_MAX_FORCE_LOCAL)
  }

  /**
   * The stop-intent brake is horizontal, has the brake magnitude, lies on
   * the line of the ship's horizontal velocity and points against it.
   */
  lemma StopBrakeOpposesVelocity(sqrt: real -> real, shipVel: Vec3, mass: real)
    requires IsSqrt(sqrt) && mass > 0.0
    requires StopBrake(sqrt, shipVel, mass).Some?
    ensures var f := StopBrake(sqrt, shipVel, mass).value;
            var m := StopBrakeMagnitude(sqrt, shipVel, mass);
            && HorizSq(f) == m * m
            && f.x * shipVel.z == f.z * shipVel.x
            && f.x * shipVel.x + f.z * shipVel.z < 0.0
  {
    var speed := HorizLength(sqrt, shipVel);
    var m := StopBrakeMagnitude(sqrt, shipVel, mass);
    StopBrakeComponents(sqrt, shipVel, mass);
    ReversedOffset(shipVel.x, shipVel.z, speed, m);
  }

  /** The stop brake's components: the horizontal velocity scaled to the brake magnitude, reversed. */
  lemma StopBrakeComponents(sqrt: real -> real, shipVel: Vec3, mass: real)
    requires IsSqrt(sqrt) && mass > 0.0
    requires StopBrake(sqrt, shipVel, mass).Some?
    ensures var f := StopBrake(sqrt, shipVel, mass).value;
            var speed := HorizLength(sqrt, shipVel);
            var m := StopBrakeMagnitude(sqrt, shipVel, mass);
            && speed > 0.0
            && speed * speed == shipVel.x * shipVel.x + shipVel.z * shipVel.z
            && f.x == -(shipVel.x * (1.0 / speed) * m) && f.z == -(shipVel.z * (1.0 / speed) * m)
  {
  }

  /** The offset (dx, dz) scaled to length `len > 0` and reversed keeps its length and line and points the other way. */
  lemma ReversedOffset(dx: real, dz: real, dist: real, len: real)
    requires dist > 0.0 && dist * dist == dx * dx + dz * dz && len > 0.0
    ensures var fx := -(dx * (1.0 / dist) * len);
            var fz := -(dz * (1.0 / dist) * len);
            && fx * fx + fz * fz == len * len
            && fx * dz == fz * dx
            && fx * dx + fz * dz < 0.0
  {
    ScaledOffset(dx, dz, dist, len);
    var gx := dx * (1.0 / dist) * len;
    var gz := dz * (1.0 / dist) * len;
    assert (-gx) * (-gx) == gx * gx && (-gz) * (-gz) == gz * gz;
    assert (-gx) * dz == -(gx * dz) && (-gz) * dx == -(gz * dx);
    assert (-gx) * dx + (-gz) * dz == -(gx * dx + gz * dz);
  }

  /** What one handled animal does to the ship and to its stored pull force. */
  datatype Step =
    | StopStep(force: Option<Vec3>)
    | BrakeStep(mag: real)
    | HoldStep
    | PullStep(mag: real)
  {
    /** The value written to the animal's last-pull-force entry. */
    function Stored(): real
    {
      if PullStep? then mag else 0.0
    }
  }

  /** The ship's speed along the rope direction, in blocks per tick (the velocity is per second). */
  function ShipSpeedAlong(shipVel: Vec3, dir: Vec3): real
  {
    Dot(shipVel, dir) * SEC_PER_TICK
  }

  /** The allowed along-rope speed for this control record and animal motion. */
  function AllowedFor(sqrt: real -> real, ctl: Option<Control>, animalVel: Vec3, dir: Vec3): (a: real)
    ensures a >= VELOCITY_EPS
  {
    AllowedAlong(ctl.Some?, CommandedSpeed(sqrt, ctl), Dot(animalVel, dir))
  }

  /**
   * The decision for one animal whose rope has horizontal length `dist` and
   * unit direction `dir` (anchor to animal): stop-intent first, then the
   * hysteresis band. `prev` is the stored pull force, if any.
   */
  function Decide(sqrt: real -> real, pow: (real, real) -> real, dist: real, dir: Vec3, ctl: Option<Control>,
                  animalVel: Vec3, shipVel: Vec3, rawMass: real, prev: Option<real>): (r: Step)
    ensures r.StopStep? <==> StopIntent(sqrt, ctl)
    ensures r.StopStep? ==> r.force == StopBrake(sqrt, shipVel, EffectiveMass(rawMass))
    ensures !StopIntent(sqrt, ctl) ==>
      var m := ModeOf(ShipSpeedAlong(shipVel, dir), AllowedFor(sqrt, ctl, animalVel, dir));
      && (r.BrakeStep? <==> m == BrakeMode)
      && (r.HoldStep? <==> m == HoldMode)
      && (r.PullStep? <==> m == PullMode)
    ensures r.BrakeStep? ==> 0.0 < r.mag <= MAX_FORCE
    ensures r.PullStep? ==> 0.0 <= r.mag <= MAX_FORCE
    ensures r.PullStep? && prev.Some? && 0.0 <= prev.value <= MAX_FORCE ==>
      var mass := EffectiveMass(rawMass);
      prev.value - MaxDelta(mass) <= r.mag <= prev.value + MaxDelta(mass)
    ensures 0.0 <= r.Stored() <= MAX_FORCE
  {
    var commanded := CommandedSpeed(sqrt, ctl);
    var stretch := dist - Slack(ctl.Some?);
    var shipSpeedAlong := ShipSpeedAlong(shipVel, dir);
    var mass := EffectiveMass(rawMass);
    if StopIntent(sqrt, ctl) then StopStep(StopBrake(sqrt, shipVel, mass))
    else
      var allowed := AllowedFor(sqrt, ctl, animalVel, dir);
      match ModeOf(shipSpeedAlong, allowed)
      case BrakeMode => BrakeStep(BrakeMagnitude(shipSpeedAlong, allowed, mass))
      case HoldMode => HoldStep
      case PullMode =>
        var target := PullTarget(pow, HasInput(sqrt, ctl), commanded, shipSpeedAlong, stretch, Dot(animalVel, dir), mass);
        var p := if prev.Some? then prev.value else target;
        PullStep(SmoothedForce(p, target, mass))
  }
}
