/**
 * The client's sprint intent (ClientSprintIntent.java), which works in both
 * of the game's sprint modes: in toggle mode each press of the sprint key
 * flips it, in hold mode it follows the key.
 */
module SprintIntent {

  /**
   * The intent after one tick: in toggle mode flipped when a press was
   * consumed, otherwise kept; in hold mode whether the key is down.
   */
  function NextToggled(toggled: bool, toggleMode: bool, clickConsumed: bool, keyDown: bool): (r: bool)
    ensures toggleMode ==> (r != toggled <==> clickConsumed)
    ensures !toggleMode ==> r == keyDown
  {
    if toggleMode then (if clickConsumed then !toggled else toggled) else keyDown
  }

  /** In toggle mode two presses cancel out. */
  lemma {:induction false} TwoPressesCancel(toggled: bool, keyDown1: bool, keyDown2: bool)
    ensures NextToggled(NextToggled(toggled, true, true, keyDown1), true, true, keyDown2) == toggled
  {
  }

  class ClientSprintIntent {
    var toggled: bool

    constructor ()
      ensures !toggled
    {
      toggled := false;
    }

    /**
     * tick: `toggleMode` is the game's toggle-sprint option, `clickConsumed`
     * whether a buffered press of the sprint key was taken (only looked at
     * in toggle mode), `keyDown` whether the key is held.
     */
    method Tick(toggleMode: bool, clickConsumed: bool, keyDown: bool)
      modifies this
      ensures toggled == NextToggled(old(toggled), toggleMode, clickConsumed, keyDown)
    {
      if toggleMode {
        if clickConsumed {
          toggled := !toggled;
        }
      } else {
        toggled := keyDown;
      }
    }

    function Get(): (r: bool)
      reads this
      ensures r == toggled
    {
      toggled
    }

    method Reset()
      modifies this
      ensures !toggled
    {
      toggled := false;
    }
  }
}
