/**
 * The client-to-server steering packet (AnimalControlInputPacket.java): three
 * floats and two booleans, written to and read from a network byte buffer in
 * that order.
 */
module InputPacket {
  import opened Wrappers

  newtype byte = x: int | 0 <= x < 256

  /** The 32 raw bits of a Java float, which is what the buffer carries. */
  type FloatBits = x: int | 0 <= x < 0x1_0000_0000

  datatype Packet = Packet(forward: FloatBits, strafe: FloatBits, yaw: FloatBits, sprint: bool, jump: bool)

  /** writeFloat: the float's bits as four bytes, most significant first. */
  function FloatBytes(bits: FloatBits): (bs: seq<byte>)
    ensures |bs| == 4
  {
    [(bits / 0x100_0000) as byte, (bits / 0x1_0000 % 0x100) as byte, (bits / 0x100 % 0x100) as byte, (bits % 0x100) as byte]
  }

  /** readFloat: four bytes, most significant first, as the float's bits. */
  function BytesFloat(b0: byte, b1: byte, b2: byte, b3: byte): FloatBits
  {
    b0 as int * 0x100_0000 + b1 as int * 0x1_0000 + b2 as int * 0x100 + b3 as int
  }

  /** writeBoolean: one byte, 1 or 0. */
  function BoolByte(b: bool): byte { if b then 1 else 0 }

  /** readBoolean: any non-zero byte reads as true. */
  predicate ByteBool(b: byte) { b != 0 }

  const PACKET_SIZE := 14

  /** encode: forward, strafe, yaw, sprint, jump. */
  function EncodePacket(p: Packet): (bs: seq<byte>)
    ensures |bs| == PACKET_SIZE
  {
    FloatBytes(p.forward) + FloatBytes(p.strafe) + FloatBytes(p.yaw) + [BoolByte(p.sprint), BoolByte(p.jump)]
  }

  /** decode: the packet in the first fourteen bytes, or nothing when fewer remain. */
  function DecodePacket(bs: seq<byte>): (r: Option<Packet>)
    ensures r.Some? <==> |bs| >= PACKET_SIZE
  {
    if |bs| < PACKET_SIZE then None
    else Some(Packet(BytesFloat(bs[0], bs[1], bs[2], bs[3]),
                     BytesFloat(bs[4], bs[5], bs[6], bs[7]),
                     BytesFloat(bs[8], bs[9], bs[10], bs[11]),
                     ByteBool(bs[12]), ByteBool(bs[13])))
  }

  lemma FloatRoundTrip(bits: FloatBits)
    ensures var bs := FloatBytes(bits); BytesFloat(bs[0], bs[1], bs[2], bs[3]) == bits
  {
    var q2 := bits / 0x100;
    var q1 := q2 / 0x100;
    var q0 := q1 / 0x100;
    assert bits == q2 * 0x100 + bits % 0x100;
    assert q2 == q1 * 0x100 + q2 % 0x100;
    assert q1 == q0 * 0x100 + q1 % 0x100;
    assert bits / 0x1_0000 == q1;
    assert bits / 0x100_0000 == q0;
  }

  /** What the server decodes is what the client encoded, whatever follows it in the buffer. */
  lemma {:induction false} PacketRoundTrip(p: Packet, rest: seq<byte>)
    ensures DecodePacket(EncodePacket(p) + rest) == Some(p)
  {
    var bs := EncodePacket(p) + rest;
    FloatRoundTrip(p.forward);
    FloatRoundTrip(p.strafe);
    FloatRoundTrip(p.yaw);
    assert bs[0..4] == FloatBytes(p.forward);
    assert bs[4..8] == FloatBytes(p.strafe);
    assert bs[8..12] == FloatBytes(p.yaw);
  }

  /** A network buffer: the bytes written so far and the position of the next read. */
  class ByteBuf {
    var bytes: seq<byte>
    var readerIndex: nat

    predicate Valid()
      reads this
    {
      readerIndex <= |bytes|
    }

    /** The bytes not yet read. */
    function Readable(): seq<byte>
      reads this
      requires Valid()
    {
      bytes[readerIndex..]
    }

    constructor ()
      ensures Valid() && bytes == [] && readerIndex == 0
    {
      bytes := [];
      readerIndex := 0;
    }

    method WriteFloat(bits: FloatBits)
      modifies this
      ensures bytes == old(bytes) + FloatBytes(bits) && readerIndex == old(readerIndex)
    {
      bytes := bytes + FloatBytes(bits);
    }

    method WriteBoolean(b: bool)
      modifies this
      ensures bytes == old(bytes) + [BoolByte(b)] && readerIndex == old(readerIndex)
    {
      bytes := bytes + [BoolByte(b)];
    }

    /** readFloat: fails, reading nothing, when fewer than four bytes remain. */
    method ReadFloat() returns (r: Option<FloatBits>)
      requires Valid()
      modifies this
      ensures Valid() && bytes == old(bytes)
      ensures r.Some? <==> |old(Readable())| >= 4
      ensures r.Some? ==> var rd := old(Readable());
                          r.value == BytesFloat(rd[0], rd[1], rd[2], rd[3]) && readerIndex == old(readerIndex) + 4
      ensures r.None? ==> readerIndex == old(readerIndex)
    {
      if |bytes| - readerIndex < 4 { return None; }
      r := Some(BytesFloat(bytes[readerIndex], bytes[readerIndex + 1], bytes[readerIndex + 2], bytes[readerIndex + 3]));
      readerIndex := readerIndex + 4;
    }

    /** readBoolean: fails, reading nothing, when no byte remains. */
    method ReadBoolean() returns (r: Option<bool>)
      requires Valid()
      modifies this
      ensures Valid() && bytes == old(bytes)
      ensures r.Some? <==> |old(Readable())| >= 1
      ensures r.Some? ==> r.value == ByteBool(old(Readable())[0]) && readerIndex == old(readerIndex) + 1
      ensures r.None? ==> readerIndex == old(readerIndex)
    {
      if readerIndex == |bytes| { return None; }
      r := Some(ByteBool(bytes[readerIndex]));
      readerIndex := readerIndex + 1;
    }
  }

  /** encode: the packet's bytes are appended to the buffer. */
  method Encode(msg: Packet, buf: ByteBuf)
    modifies buf
    ensures buf.bytes == old(buf.bytes) + EncodePacket(msg) && buf.readerIndex == old(buf.readerIndex)
  {
    buf.WriteFloat(msg.forward);
    buf.WriteFloat(msg.strafe);
    buf.WriteFloat(msg.yaw);
    buf.WriteBoolean(msg.sprint);
    buf.WriteBoolean(msg.jump);
  }

  /**
   * decode: the packet in the next fourteen readable bytes, which are
   * consumed; a read that runs out of bytes makes the whole decode fail.
   */
  method Decode(buf: ByteBuf) returns (r: Option<Packet>)
    requires buf.Valid()
    modifies buf
    ensures buf.Valid() && buf.bytes == old(buf.bytes)
    ensures r == DecodePacket(old(buf.Readable()))
    ensures r.Some? ==> buf.readerIndex == old(buf.readerIndex) + PACKET_SIZE
  {
    var rd := buf.Readable();
    var forward := buf.ReadFloat();
    if forward.None? { return None; }
    var strafe := buf.ReadFloat();
    if strafe.None? { return None; }
    var yaw := buf.ReadFloat();
    if yaw.None? { return None; }
    var sprint := buf.ReadBoolean();
    if sprint.None? { return None; }
    var jump := buf.ReadBoolean();
    if jump.None? { return None; }
    r := Some(Packet(forward.value, strafe.value, yaw.value, sprint.value, jump.value));
  }
}
