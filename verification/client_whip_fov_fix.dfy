/**
 * The client's field-of-view fix for the whip (ClientWhipFovFix.java):
 * while the whip is in the main hand, and for a few ticks after it leaves
 * it, the speed-dependent FOV change is replaced by the neutral modifier 1.0.
 */
module WhipFovFix {
  import opened Wrappers

  const GRACE_TICKS_ON_RELEASE := 5
  const NEUTRAL_FOV := 1.0

  /**
   * The grace counter after one client tick: untouched outside the END
   * phase, zero without a player, full while holding the whip, and
   * otherwise counted down to zero.
   */
  function NextGrace(grace: int, phaseEnd: bool, playerPresent: bool, holdingWhip: bool): (g: int)
    ensures !phaseEnd ==> g == grace
    ensures phaseEnd && !playerPresent ==> g == 0
    ensures phaseEnd && playerPresent && holdingWhip ==> g == GRACE_TICKS_ON_RELEASE
    ensures phaseEnd && playerPresent && !holdingWhip ==> g == (if grace > 0 then grace - 1 else grace)
    ensures 0 <= grace <= GRACE_TICKS_ON_RELEASE ==> 0 <= g <= GRACE_TICKS_ON_RELEASE
  {
    if !phaseEnd then grace
    else if !playerPresent then 0
    else if holdingWhip then GRACE_TICKS_ON_RELEASE
    else if grace > 0 then grace - 1
    else grace
  }

  /** The FOV modifier the event ends with: neutral while the whip is held or grace is left, else unchanged. */
  function FovModifier(grace: int, playerPresent: bool, holdingWhip: bool, current: real): (fov: real)
    ensures playerPresent && (holdingWhip || grace > 0) ==> fov == NEUTRAL_FOV
    ensures !(playerPresent && (holdingWhip || grace > 0)) ==> fov == current
  {
    if !playerPresent then current
    else if holdingWhip || grace > 0 then NEUTRAL_FOV
    else current
  }

  /** The grace counter after `n` END ticks with the player present and not holding the whip. */
  function GraceAfter(grace: int, n: nat): int
  {
    if n == 0 then grace else GraceAfter(NextGrace(grace, true, true, false), n - 1)
  }

  /** Released grace runs down one per tick and stops at zero. */
  lemma {:induction false} GraceCountsDown(grace: int, n: nat)
    requires grace >= 0
    ensures GraceAfter(grace, n) == if grace >= n then grace - n else 0
  {
    if n > 0 {
      GraceCountsDown(NextGrace(grace, true, true, false), n - 1);
    }
  }

  /**
   * After the whip leaves the hand the FOV stays neutral for exactly
   * GRACE_TICKS_ON_RELEASE ticks.
   */
  lemma {:induction false} NeutralForGraceTicks(n: nat, current: real)
    requires current != NEUTRAL_FOV
    ensures var g := GraceAfter(NextGrace(0, true, true, true), n);
            FovModifier(g, true, false, current) == NEUTRAL_FOV <==> n < GRACE_TICKS_ON_RELEASE
  {
    GraceCountsDown(GRACE_TICKS_ON_RELEASE, n);
  }

  class ClientWhipFovFix {
    var graceTicks: int

    predicate Valid()
      reads this
    {
      0 <= graceTicks <= GRACE_TICKS_ON_RELEASE
    }

    constructor ()
      ensures Valid() && graceTicks == 0
    {
      graceTicks := 0;
    }

    method OnClientTick(phaseEnd: bool, playerPresent: bool, holdingWhip: bool)
      requires Valid()
      modifies this
      ensures Valid()
      ensures graceTicks == NextGrace(old(graceTicks), phaseEnd, playerPresent, holdingWhip)
    {
      if !phaseEnd { return; }
      if !playerPresent {
        graceTicks := 0;
        return;
      }
      if holdingWhip {
        graceTicks := GRACE_TICKS_ON_RELEASE;
      } else if graceTicks > 0 {
        graceTicks := graceTicks - 1;
      }
    }

    /** onFovModifier: the event's modifier after the handler, from its value `current` before. */
    method OnFovModifier(playerPresent: bool, holdingWhip: bool, current: real) returns (fov: real)
      ensures fov == FovModifier(graceTicks, playerPresent, holdingWhip, current)
    {
      fov := current;
      if !playerPresent { return; }
      if holdingWhip || graceTicks > 0 {
        fov := NEUTRAL_FOV;
      }
    }
  }
}
