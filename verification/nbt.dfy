/**
 * The part of Minecraft's NBT compound tag that the capability providers
 * use: a key -> tag map with typed put and get operations. Getters answer
 * with a default (false, 0, an empty compound) when the key is absent or
 * holds a tag of the wrong kind.
 */
module Nbt {
  import opened World

  /** The tag kinds the providers write, plus the numeric ones a getter accepts. */
  datatype Tag =
    | ByteTag(b: int)
    | IntTag(i: int)
    | DoubleTag(d: real)
    | IntArrayTag(ints: seq<int>)
    | CompoundTag(entries: map<string, Tag>)

  type Compound = map<string, Tag>

  const EMPTY: Compound := map[]

  /** Java's narrowing of an int to a byte: the low eight bits, read as signed. */
  function ToByte(i: int): (b: int)
    ensures -128 <= b <= 127
    ensures -128 <= i <= 127 ==> b == i
  {
    (i + 128) % 256 - 128
  }

  /** Java's saturating cast of a floored double to int. */
  function FloorToInt(d: real): (i: int)
    ensures -0x8000_0000 <= i <= 0x7fff_ffff
    ensures -0x8000_0000 as real <= d < 0x8000_0000 as real ==> i == d.Floor
  {
    if d.Floor < -0x8000_0000 then -0x8000_0000 else if d.Floor > 0x7fff_ffff then 0x7fff_ffff else d.Floor
  }

  predicate IsNumeric(t: Tag) { t.ByteTag? || t.IntTag? || t.DoubleTag? }

  /** CompoundTag.contains(key): the key is present, whatever its tag. */
  predicate Contains(c: Compound, key: string) { key in c }

  function GetByte(c: Compound, key: string): (b: int)
    ensures key !in c ==> b == 0
  {
    if key in c && IsNumeric(c[key]) then
      match c[key]
      case ByteTag(b) => b
      case IntTag(i) => ToByte(i)
      case DoubleTag(d) => ToByte(FloorToInt(d))
    else 0
  }

  function GetInt(c: Compound, key: string): (i: int)
    ensures key !in c ==> i == 0
  {
    if key in c && IsNumeric(c[key]) then
      match c[key]
      case ByteTag(b) => b
      case IntTag(i) => i
      case DoubleTag(d) => FloorToInt(d)
    else 0
  }

  function GetDouble(c: Compound, key: string): (d: real)
    ensures key !in c ==> d == 0.0
  {
    if key in c && IsNumeric(c[key]) then
      match c[key]
      case ByteTag(b) => b as real
      case IntTag(i) => i as real
      case DoubleTag(d) => d
    else 0.0
  }

  /** getBoolean: a non-zero byte. */
  predicate GetBoolean(c: Compound, key: string) { GetByte(c, key) != 0 }

  function PutBoolean(c: Compound, key: string, v: bool): Compound { c[key := ByteTag(if v then 1 else 0)] }

  function PutInt(c: Compound, key: string, v: int): Compound { c[key := IntTag(v)] }

  function PutDouble(c: Compound, key: string, v: real): Compound { c[key := DoubleTag(v)] }

  /** putUUID: the UUID as an array of four ints. */
  function PutUuid(c: Compound, key: string, u: Uuid): Compound { c[key := IntArrayTag([u.a, u.b, u.c, u.d])] }

  /** hasUUID: an int array of length four under the key. */
  predicate HasUuid(c: Compound, key: string)
  {
    key in c && c[key].IntArrayTag? && |c[key].ints| == 4
  }

  function GetUuid(c: Compound, key: string): Uuid
    requires HasUuid(c, key)
  {
    var ints := c[key].ints;
    Uuid(ints[0], ints[1], ints[2], ints[3])
  }

  /** getCompound: the nested compound, or an empty one. */
  function GetCompound(c: Compound, key: string): Compound
  {
    if key in c && c[key].CompoundTag? then c[key].entries else EMPTY
  }

  /** NbtUtils.writeBlockPos. */
  function WriteBlockPos(p: BlockPos): Tag
  {
    CompoundTag(PutInt(PutInt(PutInt(EMPTY, "X", p.x), "Y", p.y), "Z", p.z))
  }

  /** NbtUtils.readBlockPos. */
  function ReadBlockPos(c: Compound): BlockPos
  {
    BlockPos(GetInt(c, "X"), GetInt(c, "Y"), GetInt(c, "Z"))
  }

  // ---------------- round trips ----------------

  lemma BooleanRoundTrip(c: Compound, key: string, v: bool)
    ensures GetBoolean(PutBoolean(c, key, v), key) == v
  {
  }

  lemma DoubleRoundTrip(c: Compound, key: string, v: real)
    ensures GetDouble(PutDouble(c, key, v), key) == v
  {
  }

  lemma UuidRoundTrip(c: Compound, key: string, u: Uuid)
    ensures HasUuid(PutUuid(c, key, u), key) && GetUuid(PutUuid(c, key, u), key) == u
  {
  }

  /** A block position written into a compound under a key reads back unchanged. */
  lemma BlockPosRoundTrip(c: Compound, key: string, p: BlockPos)
    ensures ReadBlockPos(GetCompound(c[key := WriteBlockPos(p)], key)) == p
  {
  }
}
