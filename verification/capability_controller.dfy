/**
 * The whip-control flag of a player (AnimalController.java) and its
 * capability provider (AnimalControllerProvider.java), which hands the flag
 * out for its capability key and saves and loads it as NBT.
 */
module Controller {
  import opened Wrappers
  import opened World
  import opened Nbt

  class AnimalController {
    var controlling: bool

    constructor ()
      ensures !controlling
    {
      controlling := false;
    }

    method SetControlling(value: bool)
      modifies this
      ensures controlling == value
    {
      controlling := value;
    }
  }

  /** The tag serializeNBT writes: the flag under "Controlling" and nothing else. */
  function SavedController(controlling: bool): (tag: Compound)
    ensures tag.Keys == {"Controlling"}
    ensures GetBoolean(tag, "Controlling") == controlling
  {
    PutBoolean(EMPTY, "Controlling", controlling)
  }

  /**
   * The flag deserializeNBT sets from a tag: a non-zero number under
   * "Controlling"; false when the key is missing.
   */
  function LoadedController(tag: Compound): (controlling: bool)
    ensures "Controlling" !in tag ==> !controlling
    ensures "Controlling" in tag && tag["Controlling"].ByteTag? ==> (controlling <==> tag["Controlling"].b != 0)
  {
    GetBoolean(tag, "Controlling")
  }

  /** Loading what was saved restores the flag. */
  lemma ControllerRoundTrip(controlling: bool)
    ensures LoadedController(SavedController(controlling)) == controlling
  {
  }

  class AnimalControllerProvider {
    const instance: AnimalController

    constructor ()
      ensures fresh(instance) && !instance.controlling
    {
      instance := new AnimalController();
    }

    /** getCapability: the flag for the controller capability key, nothing for any other key. */
    function GetCapability(cap: CapabilityKey): (r: Option<AnimalController>)
      ensures r.Some? <==> cap == AnimalControllerCapability
      ensures r.Some? ==> r.value == instance
    {
      if cap == AnimalControllerCapability then Some(instance) else None
    }

    method SerializeNBT() returns (tag: Compound)
      ensures tag == SavedController(instance.controlling)
    {
      tag := EMPTY;
      tag := PutBoolean(tag, "Controlling", instance.controlling);
    }

    method DeserializeNBT(tag: Compound)
      modifies instance
      ensures instance.controlling == LoadedController(tag)
    {
      instance.SetControlling(GetBoolean(tag, "Controlling"));
    }
  }
}
