/** The wire format of the handshake layer: `src/packet.rs` and the byte-level half of `handle_incoming`. */
module Packet {
  import opened Base

  datatype PacketType = KcpData | Syn | SynAck | Reset

  function ToByte(typ: PacketType): Byte {
    match typ
    case KcpData => 0
    case Syn => 1
    case SynAck => 2
    case Reset => 3
  }

  function FromByte(b: Byte): (r: Option<PacketType>)
    ensures forall typ :: r == Some(typ) <==> ToByte(typ) == b
  {
    match b
    case 0 => Some(KcpData)
    case 1 => Some(Syn)
    case 2 => Some(SynAck)
    case 3 => Some(Reset)
    case _ => None
  }

  /** `u32::to_le_bytes`. */
  function ToLeBytes(n: U32): (r: Bytes)
    ensures |r| == 4 && FromLeBytes(r) == n
  {
    var n1 := n / 0x100;
    var n2 := n1 / 0x100;
    [n % 0x100, n1 % 0x100, n2 % 0x100, n2 / 0x100]
  }

  /** `u32::from_le_bytes`. */
  function FromLeBytes(b: Bytes): U32
    requires |b| == 4
  {
    var b0: int, b1: int, b2: int, b3: int := b[0], b[1], b[2], b[3];
    b0 + 0x100 * (b1 + 0x100 * (b2 + 0x100 * b3))
  }

  lemma LeBytesUnique(b: Bytes)
    requires |b| == 4
    ensures ToLeBytes(FromLeBytes(b)) == b
  {
    var b2: int, b3: int, n: int := b[2], b[3], FromLeBytes(b);
    assert n / 0x100 / 0x100 == b2 + 0x100 * b3;
  }

  /** The bytes of a control packet: a type byte and a little-endian conversation id. */
  function ControlBytes(typ: PacketType, conv: Conv): Bytes {
    [ToByte(typ)] + ToLeBytes(conv)
  }

  method EncodeControl(typ: PacketType, conv: Conv) returns (buf: Bytes)
    ensures buf == ControlBytes(typ, conv)
    ensures |buf| == 5 && buf[0] == (match typ case KcpData => 0 case Syn => 1 case SynAck => 2 case Reset => 3)
    ensures var b: seq<int> := buf;
            b[1] + 0x100 * b[2] + 0x1_0000 * b[3] + 0x100_0000 * b[4] == conv
  {
    buf := [];
    buf := buf + [ToByte(typ)];
    buf := buf + ToLeBytes(conv);
    assert buf[1..5] == ToLeBytes(conv);
    LittleEndian(buf[1..5]);
  }

  /** Four bytes are read with the least significant one first. */
  lemma LittleEndian(b: Bytes)
    requires |b| == 4
    ensures var n: seq<int> := b;
            FromLeBytes(b) == n[0] + 0x100 * n[1] + 0x1_0000 * n[2] + 0x100_0000 * n[3]
  {
  }

  /** The datagrams of each kind, byte by byte: a type byte, then the id, least significant byte first. */
  lemma WireFormat(data: Bytes, conv: Conv)
    ensures var b: seq<int> := data;
            var carries := |b| >= 5 && b[1] + 0x100 * b[2] + 0x1_0000 * b[3] + 0x100_0000 * b[4] == conv;
            && (Parse(data) == FrameIn(conv) <==> carries && data[0] == 0)
            && (Parse(data) == SynIn(conv) <==> carries && data[0] == 1)
            && (Parse(data) == SynAckIn(conv) <==> carries && data[0] == 2)
            && (Parse(data) == ResetIn(conv) <==> carries && data[0] == 3)
    ensures Parse(data) == RuntIn <==> 1 <= |data| < 5 && data[0] == 0
    ensures Parse(data) == Invalid <==> data == [] || data[0] > 3 || (data[0] > 0 && |data| < 5)
  {
    if |data| >= 5 {
      LittleEndian(data[1..][..4]);
    }
  }

  method EncodeKcpData(kcpPacket: Bytes) returns (buf: Bytes)
    ensures SplitPacket(buf) == Some((KcpData, kcpPacket))
  {
    buf := [];
    buf := buf + [ToByte(KcpData)];
    buf := buf + kcpPacket;
    assert buf[1..] == kcpPacket;
  }

  function SplitPacket(buf: Bytes): Option<(PacketType, Bytes)> {
    if buf == [] then None
    else match FromByte(buf[0])
      case None => None
      case Some(typ) => Some((typ, buf[1..]))
  }

  /**
   What the branches of `handle_incoming` see in a datagram. `Invalid` covers an
   empty datagram, an unknown type byte and a truncated control packet; `RuntIn` is
   a KCP frame too short to hold a conversation id.
   */
  datatype Inbound =
    | Invalid
    | RuntIn
    | FrameIn(conv: Conv)
    | SynIn(conv: Conv)
    | SynAckIn(conv: Conv)
    | ResetIn(conv: Conv)

  /** The branch a well-formed packet of each type reaches. */
  function InboundOf(typ: PacketType, conv: Conv): Inbound {
    match typ
    case KcpData => FrameIn(conv)
    case Syn => SynIn(conv)
    case SynAck => SynAckIn(conv)
    case Reset => ResetIn(conv)
  }

  function Parse(data: Bytes): Inbound {
    match SplitPacket(data)
    case None => Invalid
    case Some((typ, payload)) =>
      if |payload| >= 4 then InboundOf(typ, FromLeBytes(payload[..4]))
      else if typ == KcpData then RuntIn
      else Invalid
  }

  /**
   The receiver sees a type and a conversation id exactly in the datagrams that start
   with what `encode_control` writes for them, whatever bytes follow.
   */
  lemma {:induction false} ParseRecovers(data: Bytes, typ: PacketType, conv: Conv)
    ensures Parse(data) == InboundOf(typ, conv) <==> ControlBytes(typ, conv) <= data
  {
    var head := ControlBytes(typ, conv);
    if head <= data {
      assert data[0] == head[0];
      assert data[1..][..4] == data[1..5] == head[1..5] == ToLeBytes(conv);
    }
    if Parse(data) == InboundOf(typ, conv) {
      LeBytesUnique(data[1..][..4]);
      assert data[..5] == [data[0]] + data[1..][..4];
    }
  }

  /** A control packet cut short is rejected; a KCP frame cut short is only a runt. */
  lemma TruncatedRejected(typ: PacketType, payload: Bytes)
    ensures Parse([ToByte(typ)] + payload) == (if typ == KcpData then RuntIn else Invalid) <==> |payload| < 4
  {
    assert ([ToByte(typ)] + payload)[1..] == payload;
  }
}
