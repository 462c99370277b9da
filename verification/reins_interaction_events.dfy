/**
 * Right-clicking an animal (ReinsInteractionEvents.java): shift-click takes
 * the reins off a reined animal; a plain click with reins in the main hand
 * puts them on, and the player becomes the animal's owner.
 */
module ReinsInteraction {
  import opened Wrappers
  import opened World
  import opened Reined

  const REMOVED_MSG := "Reins removed from animal"
  const ATTACHED_MSG := "Reins attached to animal"
  const SHIP_MSG := "Animal leashed to a Valkyrien Skies ship"

  /** The player's main-hand stack: its item kind is fixed, its count shrinks. */
  class ItemStack {
    const isReins: bool
    var count: int

    constructor (isReins: bool, count: int)
      ensures this.isReins == isReins && this.count == count
    {
      this.isReins := isReins;
      this.count := count;
    }

    /** ItemStack.is(REINS): an empty stack is no item at all. */
    predicate HoldsReins()
      reads this
    {
      isReins && count > 0
    }

    method Shrink(n: int)
      modifies this
      ensures count == old(count) - n
    {
      count := count - n;
    }
  }

  /** What the click touched: not an animal, or an animal and its reins record, if it has one. */
  datatype Target = NotAnimal | AnimalTarget(reined: Option<ReinedAnimal>)

  /** The player's side, its shift key, creative mode, and its id. */
  datatype PlayerView = PlayerView(id: Uuid, clientSide: bool, shiftDown: bool, creative: bool)

  /** The handler's visible effects: event cancelled, chat messages, one reins item dropped. */
  datatype Outcome = Outcome(canceled: bool, messages: seq<string>, droppedReins: bool)

  const NOTHING := Outcome(false, [], false)

  /** The record and main-hand count after a server-side click on an animal with a record. */
  datatype Interaction = Interaction(record: ReinedState, handCount: int, outcome: Outcome)

  /**
   * The server-side handling of a click on an animal whose record is `s`:
   * shift-click removes reins (if any) and clears the ship leash; otherwise,
   * holding reins attaches them, consuming one item outside creative mode.
   */
  function Interact(s: ReinedState, p: PlayerView, holding: bool, handCount: int, shipDetected: bool): (r: Interaction)
    ensures r.outcome.canceled <==> (p.shiftDown && s.hasReins) || (!p.shiftDown && holding)
    ensures r.outcome.droppedReins <==> p.shiftDown && s.hasReins
    ensures !r.outcome.canceled ==> r == Interaction(s, handCount, NOTHING)
    ensures p.shiftDown ==> r.handCount == handCount
    ensures p.shiftDown && s.hasReins ==>
      && r.record == s.(hasReins := false, owner := None, leashedToShip := false, shipFencePos := None, shipAnchorPos := None)
      && r.outcome.messages == [REMOVED_MSG]
    ensures !p.shiftDown && holding ==>
      && r.record == s.(hasReins := true, owner := Some(p.id))
      && r.handCount == (if p.creative then handCount else handCount - 1)
      && r.outcome.messages == [ATTACHED_MSG] + (if shipDetected then [SHIP_MSG] else [])
  {
    if p.shiftDown then
      if !s.hasReins then Interaction(s, handCount, NOTHING)
      else
        Interaction(s.(hasReins := false, owner := None, leashedToShip := false, shipFencePos := None, shipAnchorPos := None),
                    handCount, Outcome(true, [REMOVED_MSG], true))
    else if !holding then Interaction(s, handCount, NOTHING)
    else
      Interaction(s.(hasReins := true, owner := Some(p.id)),
                  if p.creative then handCount else handCount - 1,
                  Outcome(true, [ATTACHED_MSG] + (if shipDetected then [SHIP_MSG] else []), false))
  }

  /** The reins items a survival player and an animal account for: in hand, dropped, and on the animal. */
  function ReinsTally(record: ReinedState, handCount: int, dropped: bool): int
  {
    handCount + (if dropped then 1 else 0) + (if record.hasReins then 1 else 0)
  }

  /**
   * Outside creative mode a click never creates reins: the tally never
   * grows, and it is kept exactly unless reins are put on an animal that
   * already wears them, which uses up the item.
   */
  lemma {:induction false} InteractConservesReins(s: ReinedState, p: PlayerView, handCount: int, shipDetected: bool)
    requires !p.creative
    ensures var r := Interact(s, p, handCount > 0, handCount, shipDetected);
            var after := ReinsTally(r.record, r.handCount, r.outcome.droppedReins);
            var before := ReinsTally(s, handCount, false);
            && after <= before
            && (after == before <==> p.shiftDown || handCount <= 0 || !s.hasReins)
  {
  }

  /** Shift-clicking an animal twice leaves it as the first click did, and the second click does nothing. */
  lemma {:induction false} RemoveIdempotent(s: ReinedState, p: PlayerView, holding: bool, handCount: int, shipDetected: bool)
    requires p.shiftDown
    ensures var r1 := Interact(s, p, holding, handCount, shipDetected);
            Interact(r1.record, p, holding, r1.handCount, shipDetected) == Interaction(r1.record, handCount, NOTHING)
  {
  }

  /**
   * onEntityInteract: nothing for a non-animal, on the client, or for an
   * animal without the reins record; otherwise the record, the main-hand
   * count and the visible effects follow Interact.
   */
  method OnEntityInteract(player: PlayerView, mainHand: ItemStack, target: Target, shipDetected: bool)
    returns (out: Outcome)
    modifies mainHand, if target.AnimalTarget? && target.reined.Some? then {target.reined.value} else {}
    ensures target.NotAnimal? || player.clientSide || target.reined.None? ==>
      out == NOTHING && mainHand.count == old(mainHand.count)
    ensures player.clientSide && target.AnimalTarget? && target.reined.Some? ==>
      target.reined.value.State() == old(target.reined.value.State())
    ensures target.AnimalTarget? && !player.clientSide && target.reined.Some? ==>
      var cap := target.reined.value;
      Interaction(cap.State(), mainHand.count, out)
        == Interact(old(cap.State()), player, old(mainHand.HoldsReins()), old(mainHand.count), shipDetected)
  {
    out := NOTHING;
    if target.NotAnimal? { return; }
    if player.clientSide { return; }
    var holdingReins := mainHand.HoldsReins();
    var removing := player.shiftDown;
    if target.reined.None? { return; }
    var cap := target.reined.value;
    if removing {
      if !cap.hasReins { return; }
      cap.SetHasReins(false);
      cap.SetOwner(None);
      cap.SetLeashedToShip(false);
      cap.SetShipFencePos(None);
      cap.SetShipAnchorPos(None);
      out := Outcome(true, [REMOVED_MSG], true);
      return;
    }
    if !holdingReins { return; }
    if !player.creative {
      mainHand.Shrink(1);
    }
    cap.SetHasReins(true);
    cap.SetOwner(Some(player.id));
    var messages := [ATTACHED_MSG];
    if shipDetected {
      messages := messages + [SHIP_MSG];
    }
    out := Outcome(true, messages, false);
  }
}
