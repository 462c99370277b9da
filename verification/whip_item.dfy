/**
 * The whip (WhipItem.java): while it sits in a player's inventory, its
 * per-tick hook keeps the player's whip-control flag equal to "the whip is
 * the selected item" and tells the player when the flag flips.
 */
module Whip {
  import opened Wrappers
  import opened Controller

  const CONTROL_ON := "Whip control: ON"
  const CONTROL_OFF := "Whip control: OFF"

  /**
   * One server-side tick for a player with the flag `controlling`: the new
   * flag, and the message sent, if any.
   */
  function WhipUpdate(controlling: bool, selected: bool): (r: (bool, Option<string>))
    ensures r.0 == selected
    ensures r.1.Some? <==> controlling != selected
    ensures r.1.Some? ==> r.1.value == CONTROL_ON || r.1.value == CONTROL_OFF
    ensures r.1 == Some(CONTROL_ON) ==> selected
    ensures r.1 == Some(CONTROL_OFF) ==> !selected
  {
    if controlling == selected then (controlling, None)
    else (selected, Some(if selected then CONTROL_ON else CONTROL_OFF))
  }

  /** The flag only announces changes: a second tick with the same selection is silent. */
  lemma {:induction false} WhipSettles(controlling: bool, selected: bool)
    ensures WhipUpdate(WhipUpdate(controlling, selected).0, selected) == (selected, None)
  {
  }

  /**
   * inventoryTick: on the server, for a player with the controller
   * capability, the flag becomes `selected`; the message announces the new
   * value and is sent only when the flag changed. Anywhere else nothing
   * happens.
   */
  method InventoryTick(clientSide: bool, isPlayer: bool, cap: Option<AnimalController>, selected: bool)
    returns (message: Option<string>)
    modifies if cap.Some? then {cap.value} else {}
    ensures clientSide || !isPlayer || cap.None? ==> message.None?
    ensures clientSide || !isPlayer ==> cap.Some? ==> cap.value.controlling == old(cap.value.controlling)
    ensures !clientSide && isPlayer && cap.Some? ==>
      (cap.value.controlling, message) == WhipUpdate(old(cap.value.controlling), selected)
  {
    message := None;
    if clientSide { return; }
    if !isPlayer { return; }
    if cap.Some? {
      var c := cap.value;
      if c.controlling != selected {
        c.SetControlling(selected);
        if selected {
          message := Some(CONTROL_ON);
        } else {
          message := Some(CONTROL_OFF);
        }
      }
    }
  }
}
