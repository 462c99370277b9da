/**
 * The handles the model receives from Minecraft and Valkyrien Skies: ships,
 * block positions, entity ids, player ids, and the force the controller asks
 * the physics engine to apply.
 */
module World {
  import opened Wrappers
  import opened Geometry

  /** A Valkyrien Skies ship, seen only through its identity. */
  datatype Ship = Ship(id: int)

  /** A block position (BlockPos). */
  datatype BlockPos = BlockPos(x: int, y: int, z: int)

  /** The capability keys of Forge's capability lookup that the model distinguishes. */
  datatype CapabilityKey = ReinedAnimalCapability | AnimalControllerCapability | OtherCapability(name: string)

  /** A player or entity UUID, as the four ints NbtUtils writes. */
  datatype Uuid = Uuid(a: int, b: int, c: int, d: int)

  /**
   * One call to apply a world-space force to a ship: at a world point, or at
   * its centre of mass when `at` is None (the "null point" of the force API).
   */
  datatype ForceCall = ForceCall(ship: Ship, force: Vec3, at: Option<Vec3>)

  /**
   * The reads the rope code makes of the world: the knot on a fence block
   * near the animal, the ship managing a position (VsShipAccess), the
   * shipyard-to-world conversion (VsShipTransforms) and the square root.
   */
  datatype KnotHost = KnotHost(
    knotAt: (BlockPos, Vec3) -> Option<Vec3>,
    shipManaging: Vec3 -> Option<Ship>,
    shipyardToWorld: (Ship, Vec3) -> Option<Vec3>,
    sqrt: real -> real)

  /** Java's 32-bit int arithmetic: the result of an int operation, wrapped into [-2^31, 2^31). */
  function WrapInt32(x: int): (r: int)
    ensures -0x8000_0000 <= r < 0x8000_0000
    ensures -0x8000_0000 <= x < 0x8000_0000 ==> r == x
    ensures (r - x) % 0x1_0000_0000 == 0
  {
    (x + 0x8000_0000) % 0x1_0000_0000 - 0x8000_0000
  }

  /** A value that fits a Java int. */
  predicate IsInt32(x: int) { -0x8000_0000 <= x < 0x8000_0000 }
}
