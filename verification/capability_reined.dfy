/**
 * The reins capability attached to every animal (ReinedAnimal.java) and its
 * provider (ReinedAnimalProvider.java), which hands the record out for its
 * capability key and saves and loads it as NBT.
 */
module Reined {
  import opened Wrappers
  import opened Geometry
  import opened World
  import opened Nbt

  /** Every field of the record, as one value. */
  datatype ReinedState = ReinedState(
    hasReins: bool,
    owner: Option<Uuid>,
    leashedToShip: bool,
    shipFencePos: Option<BlockPos>,
    shipAnchorPos: Option<Vec3>,
    shipLeashGraceTicks: int)

  /** The record of a freshly constructed ReinedAnimal. */
  const FRESH := ReinedState(false, None, false, None, None, 0)

  class ReinedAnimal {
    var hasReins: bool
    var owner: Option<Uuid>
    var leashedToShip: bool
    var shipFencePos: Option<BlockPos>
    var shipAnchorPos: Option<Vec3>
    /** Declared and initialised, but no method reads or writes it. */
    var shipLeashGraceTicks: int

    constructor ()
      ensures State() == FRESH
    {
      hasReins := false;
      owner := None;
      leashedToShip := false;
      shipFencePos := None;
      shipAnchorPos := None;
      shipLeashGraceTicks := 0;
    }

    function State(): ReinedState
      reads this
    {
      ReinedState(hasReins, owner, leashedToShip, shipFencePos, shipAnchorPos, shipLeashGraceTicks)
    }

    method SetHasReins(value: bool)
      modifies this
      ensures State() == old(State()).(hasReins := value)
    {
      hasReins := value;
    }

    method SetOwner(uuid: Option<Uuid>)
      modifies this
      ensures State() == old(State()).(owner := uuid)
    {
      owner := uuid;
    }

    method SetLeashedToShip(value: bool)
      modifies this
      ensures State() == old(State()).(leashedToShip := value)
    {
      leashedToShip := value;
    }

    method SetShipFencePos(pos: Option<BlockPos>)
      modifies this
      ensures State() == old(State()).(shipFencePos := pos)
    {
      shipFencePos := pos;
    }

    method SetShipAnchorPos(pos: Option<Vec3>)
      modifies this
      ensures State() == old(State()).(shipAnchorPos := pos)
    {
      shipAnchorPos := pos;
    }
  }

  /**
   * The tag serializeNBT writes: HasReins and ShipLeashed always; Owner,
   * ShipFencePos and AnchorX/Y/Z only for fields that are set.
   */
  function Saved(s: ReinedState): (tag: Compound)
    ensures GetBoolean(tag, "HasReins") == s.hasReins
    ensures GetBoolean(tag, "ShipLeashed") == s.leashedToShip
    ensures "HasReins" in tag && "ShipLeashed" in tag
    ensures "Owner" in tag <==> s.owner.Some?
    ensures "ShipFencePos" in tag <==> s.shipFencePos.Some?
    ensures "AnchorX" in tag <==> s.shipAnchorPos.Some?
    ensures ("AnchorY" in tag <==> s.shipAnchorPos.Some?) && ("AnchorZ" in tag <==> s.shipAnchorPos.Some?)
    ensures tag.Keys <= {"HasReins", "Owner", "ShipLeashed", "ShipFencePos", "AnchorX", "AnchorY", "AnchorZ"}
  {
    var t0 := PutBoolean(EMPTY, "HasReins", s.hasReins);
    var t1 := if s.owner.Some? then PutUuid(t0, "Owner", s.owner.value) else t0;
    var t2 := PutBoolean(t1, "ShipLeashed", s.leashedToShip);
    var t3 := if s.shipFencePos.Some? then t2["ShipFencePos" := WriteBlockPos(s.shipFencePos.value)] else t2;
    if s.shipAnchorPos.Some? then
      var a := s.shipAnchorPos.value;
      PutDouble(PutDouble(PutDouble(t3, "AnchorX", a.x), "AnchorY", a.y), "AnchorZ", a.z)
    else t3
  }

  /**
   * The record deserializeNBT leaves behind, from the record `s` it starts
   * with: the two flags always come from the tag; owner, fence and anchor
   * only when their key is there, and the anchor's presence is decided by
   * AnchorX alone.
   */
  function Loaded(s: ReinedState, tag: Compound): (r: ReinedState)
    ensures r.hasReins == GetBoolean(tag, "HasReins") && r.leashedToShip == GetBoolean(tag, "ShipLeashed")
    ensures !HasUuid(tag, "Owner") ==> r.owner == s.owner
    ensures "ShipFencePos" !in tag ==> r.shipFencePos == s.shipFencePos
    ensures "AnchorX" !in tag ==> r.shipAnchorPos == s.shipAnchorPos
    ensures "AnchorX" in tag ==> r.shipAnchorPos == Some(Vec3(GetDouble(tag, "AnchorX"), GetDouble(tag, "AnchorY"), GetDouble(tag, "AnchorZ")))
    ensures r.shipLeashGraceTicks == s.shipLeashGraceTicks
  {
    s.(hasReins := GetBoolean(tag, "HasReins"),
       owner := if HasUuid(tag, "Owner") then Some(GetUuid(tag, "Owner")) else s.owner,
       leashedToShip := GetBoolean(tag, "ShipLeashed"),
       shipFencePos := if Contains(tag, "ShipFencePos") then Some(ReadBlockPos(GetCompound(tag, "ShipFencePos"))) else s.shipFencePos,
       shipAnchorPos :=
         if Contains(tag, "AnchorX") then Some(Vec3(GetDouble(tag, "AnchorX"), GetDouble(tag, "AnchorY"), GetDouble(tag, "AnchorZ")))
         else s.shipAnchorPos)
  }

  /**
   * Loading a saved record restores every saved field; a field that was
   * unset keeps whatever the receiving record held.
   */
  lemma {:induction false} SaveLoad(s: ReinedState, base: ReinedState)
    ensures var r := Loaded(base, Saved(s));
            && r.hasReins == s.hasReins && r.leashedToShip == s.leashedToShip
            && r.owner == (if s.owner.Some? then s.owner else base.owner)
            && r.shipFencePos == (if s.shipFencePos.Some? then s.shipFencePos else base.shipFencePos)
            && r.shipAnchorPos == (if s.shipAnchorPos.Some? then s.shipAnchorPos else base.shipAnchorPos)
  {
    var tag := Saved(s);
    if s.owner.Some? {
      var t0 := PutBoolean(EMPTY, "HasReins", s.hasReins);
      var t1 := PutUuid(t0, "Owner", s.owner.value);
      assert tag["Owner"] == t1["Owner"];
      UuidRoundTrip(t0, "Owner", s.owner.value);
    } else {
      assert !HasUuid(tag, "Owner");
    }
    if s.shipFencePos.Some? {
      assert tag["ShipFencePos"] == WriteBlockPos(s.shipFencePos.value);
      BlockPosRoundTrip(EMPTY, "ShipFencePos", s.shipFencePos.value);
    }
    if s.shipAnchorPos.Some? {
      var a := s.shipAnchorPos.value;
      assert tag["AnchorX"] == DoubleTag(a.x) && tag["AnchorY"] == DoubleTag(a.y) && tag["AnchorZ"] == DoubleTag(a.z);
    }
  }

  /** Saving and loading into a freshly constructed record reproduces the record. */
  lemma SaveLoadFresh(s: ReinedState)
    requires s.shipLeashGraceTicks == 0
    ensures Loaded(FRESH, Saved(s)) == s
  {
    SaveLoad(s, FRESH);
  }

  class ReinedAnimalProvider {
    const instance: ReinedAnimal

    constructor ()
      ensures fresh(instance) && instance.State() == FRESH
    {
      instance := new ReinedAnimal();
    }

    /** getCapability: the record for the reins capability key, nothing for any other key. */
    function GetCapability(cap: CapabilityKey): (r: Option<ReinedAnimal>)
      ensures r.Some? <==> cap == ReinedAnimalCapability
      ensures r.Some? ==> r.value == instance
    {
      if cap == ReinedAnimalCapability then Some(instance) else None
    }

    method SerializeNBT() returns (tag: Compound)
      ensures tag == Saved(instance.State())
    {
      tag := EMPTY;
      tag := PutBoolean(tag, "HasReins", instance.hasReins);
      if instance.owner.Some? {
        tag := PutUuid(tag, "Owner", instance.owner.value);
      }
      tag := PutBoolean(tag, "ShipLeashed", instance.leashedToShip);
      if instance.shipFencePos.Some? {
        tag := tag["ShipFencePos" := WriteBlockPos(instance.shipFencePos.value)];
      }
      if instance.shipAnchorPos.Some? {
        var a := instance.shipAnchorPos.value;
        tag := PutDouble(tag, "AnchorX", a.x);
        tag := PutDouble(tag, "AnchorY", a.y);
        tag := PutDouble(tag, "AnchorZ", a.z);
      }
    }

    method DeserializeNBT(tag: Compound)
      modifies instance
      ensures instance.State() == Loaded(old(instance.State()), tag)
    {
      instance.SetHasReins(GetBoolean(tag, "HasReins"));
      if HasUuid(tag, "Owner") {
        instance.SetOwner(Some(GetUuid(tag, "Owner")));
      }
      instance.SetLeashedToShip(GetBoolean(tag, "ShipLeashed"));
      if Contains(tag, "ShipFencePos") {
        instance.SetShipFencePos(Some(ReadBlockPos(GetCompound(tag, "ShipFencePos"))));
      }
      if Contains(tag, "AnchorX") {
        instance.SetShipAnchorPos(Some(Vec3(GetDouble(tag, "AnchorX"), GetDouble(tag, "AnchorY"), GetDouble(tag, "AnchorZ"))));
      }
    }
  }
}
