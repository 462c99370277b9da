/**
 * The server's table of the latest steering input of each controlling player
 * (ServerControlState.java), keyed by player id and stamped with the server
 * tick it arrived on.
 */
module ControlState {
  import opened Wrappers
  import opened World

  /** One player's latest input: axes and yaw, sprint and jump, and its arrival tick. */
  datatype Control = Control(forward: real, strafe: real, yaw: real, sprint: bool, jump: bool, lastInputTick: int)

  /**
   * A record counts as recent when the ticks elapsed since it arrived,
   * computed in 32-bit int arithmetic, do not exceed the grace.
   */
  predicate IsRecent(c: Control, serverTick: int, graceTicks: int)
  {
    WrapInt32(serverTick - c.lastInputTick) <= graceTicks
  }

  class ServerControlState {
    var state: map<Uuid, Control>

    constructor ()
      ensures state == map[]
    {
      state := map[];
    }

    /** update: the player's record is created if missing and every field is overwritten. */
    method Update(playerId: Uuid, forward: real, strafe: real, yaw: real, sprint: bool, jump: bool, serverTick: int)
      modifies this
      ensures state == old(state)[playerId := Control(forward, strafe, yaw, sprint, jump, serverTick)]
    {
      state := state[playerId := Control(forward, strafe, yaw, sprint, jump, serverTick)];
    }

    /** get: the player's latest record, if any. */
    function Get(playerId: Uuid): (r: Option<Control>)
      reads this
      ensures r.Some? <==> playerId in state
      ensures r.Some? ==> r.value == state[playerId]
    {
      if playerId in state then Some(state[playerId]) else None
    }

    /** getRecent: the player's record only when it is recent at `serverTick`. */
    function GetRecent(playerId: Uuid, serverTick: int, graceTicks: int): (r: Option<Control>)
      reads this
      ensures r.Some? <==> playerId in state && IsRecent(state[playerId], serverTick, graceTicks)
      ensures r.Some? ==> r == Get(playerId)
    {
      var c := Get(playerId);
      if c.None? then None
      else if IsRecent(c.value, serverTick, graceTicks) then c
      else None
    }

    /** clear: the player's record is removed, every other record kept. */
    method Clear(playerId: Uuid)
      modifies this
      ensures state == old(state) - {playerId}
      ensures Get(playerId).None?
    {
      state := state - {playerId};
    }
  }

  /**
   * Input stamped at tick t is recent, with grace g >= 0, exactly at the
   * ticks t .. t + g, as long as no 32-bit overflow intervenes.
   */
  lemma RecentWindow(c: Control, serverTick: int, graceTicks: int)
    requires IsInt32(serverTick - c.lastInputTick)
    ensures IsRecent(c, serverTick, graceTicks) <==> serverTick <= c.lastInputTick + graceTicks
  {
  }
}
