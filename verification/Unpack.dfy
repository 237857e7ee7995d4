/** Decoding one control packet from the receive buffer.

    Each decoder is a method that advances a cursor; `FrameAt` says as a value what the decoders
    compute together, for every content of memory.
 */
module Unpack {
  import opened Packets
  import opened ByteMemory
  import opened RemainingLength
  import opened Wrappers

  /** The outcome of `unpack`. `Threw` is an exception (a malformed length, or a negative payload
      size); `OffTable` a type beyond the 11-entry decoder table; `RanAway` an UNSUBSCRIBE whose
      unsigned remaining count passes zero, so that the original reads on past the frame. */
  datatype Result = Ok(packet: Packet) | Partial | Refused | Threw | OffTable | RanAway

  // ---------------------------------------------------------------- what decoding gives

  /** Where a frame ends: `Whole(used, remaining)` has `used` length bytes and is all there. */
  datatype Extent = Whole(used: nat, remaining: nat) | PartialFrame | BadLength

  ghost function ExtentAt(mem: Memory, pos: nat, available: nat): Extent
  {
    if available <= 1 then PartialFrame
    else match Decode(mem, pos, 0, available)
         case Incomplete => PartialFrame
         case Malformed => BadLength
         case Length(n, used) => if 1 + used + n > available then PartialFrame else Whole(used, n)
  }

  /** A length-prefixed string that is there only when its flag is set. */
  ghost function OptionalAt(mem: Memory, pos: nat, present: bool): string
  {
    if present then StringAt(mem, pos) else ""
  }

  ghost function OptionalEnd(mem: Memory, pos: nat, present: bool): nat
  {
    if present then StringEnd(mem, pos) else pos
  }

  ghost function ConnectAt(mem: Memory, pos: nat): Option<Body>
  {
    if StringAt(mem, pos) != "MQTT" then None
    else
      var p := StringEnd(mem, pos);
      Some(ConnectPayloadAt(mem, p + 4, mem(p), ConnectFlags.Unpack(mem(p + 1)), U16At(mem, p + 2)))
  }

  ghost function ConnectPayloadAt(mem: Memory, pos: nat, level: byte, cf: ConnectFlags, keepAlive: uint16): Body
  {
    var p1 := StringEnd(mem, pos);
    var p2 := OptionalEnd(mem, p1, cf.will);
    var p3 := OptionalEnd(mem, p2, cf.will);
    var p4 := OptionalEnd(mem, p3, cf.username);
    Connect(level, cf, keepAlive, StringAt(mem, pos),
            OptionalAt(mem, p1, cf.will), OptionalAt(mem, p2, cf.will),
            OptionalAt(mem, p3, cf.username), OptionalAt(mem, p4, cf.passwd))
  }

  ghost function BytesAt(mem: Memory, pos: nat, n: nat): (s: seq<byte>)
    ensures |s| == n
  {
    seq(n, i requires 0 <= i => mem(pos + i))
  }

  ghost function PublishAt(mem: Memory, pos: nat, qos: byte, remaining: nat): Option<Body>
  {
    var topic := StringAt(mem, pos);
    var p := StringEnd(mem, pos);
    var idBytes := if qos > 0 then 2 else 0;
    var size := remaining - (|topic| + 2) - idBytes;
    if size < 0 then None
    else Some(Publish(topic, if qos > 0 then U16At(mem, p) else 0, BytesAt(mem, p + idBytes, size)))
  }

  ghost function FiltersAt(mem: Memory, pos: nat, len: int): seq<Filter>
    decreases len
  {
    if len <= 0 then []
    else
      var topic, end := StringAt(mem, pos), StringEnd(mem, pos);
      [Filter(topic, mem(end))] + FiltersAt(mem, end + 1, len - (2 + |topic| + 1))
  }

  /** Where the SUBSCRIBE loop leaves the cursor, and what it leaves of the payload count. */
  ghost function FiltersEnd(mem: Memory, pos: nat, len: int): (r: (nat, int))
    decreases len
  {
    if len <= 0 then (pos, len)
    else FiltersEnd(mem, StringEnd(mem, pos) + 1, len - (2 + U16At(mem, pos) + 1))
  }

  /** The UNSUBSCRIBE loop: the topics and the final cursor, unless the count passes zero. */
  ghost function TopicsAt(mem: Memory, pos: nat, len: nat): Option<(seq<string>, nat)>
    decreases len
  {
    if len == 0 then Some(([], pos))
    else
      var topic, end := StringAt(mem, pos), StringEnd(mem, pos);
      if len < 2 + |topic| then None
      else match TopicsAt(mem, end, len - (2 + |topic|))
           case None => None
           case Some((rest, last)) => Some(([topic] + rest, last))
  }

  ghost predicate HasDecoder(ptype: byte)
  {
    ptype in {CONNECT, PUBLISH, PUBACK, PUBREC, PUBREL, PUBCOMP, SUBSCRIBE, UNSUBSCRIBE}
  }

  /** The variable header and payload at `pos`, of a frame with that header and length. */
  ghost function BodyAt(h: Header, len: nat, mem: Memory, pos: nat, remaining: nat): Result
    requires HasDecoder(h.ptype)
  {
    if h.ptype == CONNECT then
      match ConnectAt(mem, pos) case None => Refused case Some(b) => Ok(Packet(h, len, b))
    else if h.ptype == PUBLISH then
      match PublishAt(mem, pos, h.qos, remaining) case None => Threw case Some(b) => Ok(Packet(h, len, b))
    else if h.ptype == SUBSCRIBE then
      Ok(Packet(h, len, Subscribe(U16At(mem, pos), FiltersAt(mem, pos + 2, remaining - 2))))
    else if h.ptype == UNSUBSCRIBE then
      if h.qos % 2 != 1 then Refused
      else if remaining < 2 then RanAway
      else match TopicsAt(mem, pos + 2, remaining - 2)
           case None => RanAway
           case Some((topics, _)) => Ok(Packet(h, len, Unsubscribe(U16At(mem, pos), topics)))
    else
      Ok(Packet(h, len, Ack(U16At(mem, pos))))
  }

  ghost function Framed(h: Header, mem: Memory, pos: nat, available: nat): Result
    requires HasDecoder(h.ptype)
  {
    match ExtentAt(mem, pos, available)
    case PartialFrame => Partial
    case BadLength => Threw
    case Whole(used, remaining) => BodyAt(h, 1 + used + remaining, mem, pos + used, remaining)
  }

  /** What `unpack` gives on a buffer of `available` bytes. */
  ghost function FrameAt(mem: Memory, available: nat): Result
  {
    var h := Header.Unpack(mem(0));
    if HasDecoder(h.ptype) then Framed(h, mem, 1, available)
    else if h.ptype <= UNSUBSCRIBE then Refused
    else OffTable
  }

  /** A type without a decoder is refused up to 10 and read past the table above, whatever follows. */
  lemma UndecodedTypes(mem: Memory, available: nat)
    ensures mem(0) / 16 in {0, 2, 9} ==> FrameAt(mem, available) == Refused
    ensures mem(0) / 16 > 10 ==> FrameAt(mem, available) == OffTable
  {
  }

  /** What becomes of a frame that is all there, by type: a CONNECT is refused if and only if its protocol name is
      not "MQTT"; a PUBLISH throws if and only if topic and packet id are longer than the frame says; an
      UNSUBSCRIBE is refused if and only if bit 1 of its first byte is clear; the others are always decoded. */
  lemma FrameOutcomes(mem: Memory, available: nat, used: nat, remaining: nat)
    requires ExtentAt(mem, 1, available) == Whole(used, remaining)
    ensures var r, ptype, qos, start := FrameAt(mem, available), mem(0) / 16, mem(0) / 2 % 4, 1 + used;
            && (ptype == 1 ==> if StringAt(mem, start) == "MQTT" then r.Ok? else r == Refused)
            && (ptype == 3 ==> var fixed := 2 + U16At(mem, start) + if qos > 0 then 2 else 0;
                               if fixed > remaining then r == Threw
                               else r.Ok? && r.packet.body.Publish? && |r.packet.body.payload| == remaining - fixed)
            && (ptype == 8 ==> r.Ok?) && (4 <= ptype <= 7 ==> r.Ok? && r.packet.body == Ack(U16At(mem, start)))
            && (ptype == 10 ==> (r == Refused <==> mem(0) / 2 % 2 == 0))
            && (r.Ok? ==> r.packet.pktLen == 1 + used + remaining && r.packet.header.ptype == ptype)
  {
  }

  // ---------------------------------------------------------------- the decoders

  method IsPartial(c: Cursor, available: nat) returns (e: Extent)
    modifies c
    ensures e == ExtentAt(c.mem, old(c.pos), available)
    ensures e.Whole? ==> c.pos == old(c.pos) + e.used
  {
    if available <= 1 { return PartialFrame; }
    var start := c.pos;
    var d := DecodeLength(c, available);
    match d {
      case Incomplete => return PartialFrame;
      case Malformed => return BadLength;
      case Length(remaining, _) =>
        var lengthOfRemaining := c.pos - start;
        if 1 + lengthOfRemaining + remaining > available { return PartialFrame; }
        return Whole(lengthOfRemaining, remaining);
    }
  }

  method UnpackOptional(c: Cursor, present: bool) returns (s: string)
    modifies c
    ensures s == OptionalAt(c.mem, old(c.pos), present) && c.pos == OptionalEnd(c.mem, old(c.pos), present)
  {
    s := "";
    if present { s := c.UnpackString16(); }
  }

  method UnpackConnect(header: Header, c: Cursor, available: nat) returns (r: Result)
    requires header.ptype == CONNECT
    modifies c
    ensures r == Framed(header, c.mem, old(c.pos), available)
  {
    var e := IsPartial(c, available);
    if e.PartialFrame? { return Partial; }
    if e.BadLength? { return Threw; }
    var pktLen := 1 + e.used + e.remaining;
    var body := UnpackConnectBody(c);
    match body {
      case None => return Refused;
      case Some(b) => return Ok(Packet(header, pktLen, b));
    }
  }

  method UnpackConnectBody(c: Cursor) returns (body: Option<Body>)
    modifies c
    ensures body == ConnectAt(c.mem, old(c.pos))
  {
    var protocolName := c.UnpackString16();
    if protocolName != "MQTT" { return None; }
    var level := c.UnpackU8();
    var flags := c.UnpackU8();
    var cf := ConnectFlags.Unpack(flags);
    var keepAlive := c.UnpackU16();
    body := UnpackConnectPayload(c, level, cf, keepAlive);
  }

  method UnpackConnectPayload(c: Cursor, level: byte, cf: ConnectFlags, keepAlive: uint16) returns (body: Option<Body>)
    modifies c
    ensures body == Some(ConnectPayloadAt(c.mem, old(c.pos), level, cf, keepAlive))
  {
    var clientId := c.UnpackString16();
    var willTopic := UnpackOptional(c, cf.will);
    var willMsg := UnpackOptional(c, cf.will);
    var username := UnpackOptional(c, cf.username);
    var passwd := UnpackOptional(c, cf.passwd);
    body := Some(Connect(level, cf, keepAlive, clientId, willTopic, willMsg, username, passwd));
  }

  method UnpackPublish(header: Header, c: Cursor, available: nat) returns (r: Result)
    requires header.ptype == PUBLISH
    modifies c
    ensures r == Framed(header, c.mem, old(c.pos), available)
  {
    var e := IsPartial(c, available);
    if e.PartialFrame? { return Partial; }
    if e.BadLength? { return Threw; }
    var pktLen := 1 + e.used + e.remaining;
    var topic := c.UnpackString16();
    var payloadSize: int := e.remaining - (|topic| + 2);
    var packetId: uint16 := 0;
    if header.qos > 0 {
      packetId := c.UnpackU16();
      payloadSize := payloadSize - 2;
    }
    if payloadSize < 0 { return Threw; }
    var start, m := c.pos, c.mem;
    var payload: seq<byte> := seq(payloadSize, i requires 0 <= i => m(start + i));
    c.pos := c.pos + payloadSize;
    assert payload == BytesAt(c.mem, start, payloadSize);
    r := Ok(Packet(header, pktLen, Publish(topic, packetId, payload)));
  }

  method UnpackAck(header: Header, c: Cursor, available: nat) returns (r: Result)
    requires header.ptype in {PUBACK, PUBREC, PUBREL, PUBCOMP}
    modifies c
    ensures r == Framed(header, c.mem, old(c.pos), available)
  {
    var e := IsPartial(c, available);
    if e.PartialFrame? { return Partial; }
    if e.BadLength? { return Threw; }
    var pktLen := 1 + e.used + e.remaining;
    var packetId := c.UnpackU16();
    r := Ok(Packet(header, pktLen, Ack(packetId)));
  }

  method UnpackFilters(c: Cursor, len: int) returns (filters: seq<Filter>, left: int)
    modifies c
    ensures filters == FiltersAt(c.mem, old(c.pos), len)
    ensures (c.pos, left) == FiltersEnd(c.mem, old(c.pos), len)
  {
    filters, left := [], len;
    while left > 0
      invariant filters + FiltersAt(c.mem, c.pos, left) == FiltersAt(c.mem, old(c.pos), len)
      invariant FiltersEnd(c.mem, c.pos, left) == FiltersEnd(c.mem, old(c.pos), len)
    {
      ghost var pos, len0, done := c.pos, left, filters;
      var topic := c.UnpackString16();
      var qos := c.UnpackU8();
      filters := filters + [Filter(topic, qos)];
      left := left - (2 + |topic| + 1);
      assert FiltersAt(c.mem, pos, len0) == [Filter(topic, qos)] + FiltersAt(c.mem, c.pos, left);
    }
  }

  method UnpackSubscribe(header: Header, c: Cursor, available: nat) returns (r: Result)
    requires header.ptype == SUBSCRIBE
    modifies c
    ensures r == Framed(header, c.mem, old(c.pos), available)
  {
    var e := IsPartial(c, available);
    if e.PartialFrame? { return Partial; }
    if e.BadLength? { return Threw; }
    var pktLen := 1 + e.used + e.remaining;
    var packetId := c.UnpackU16();
    var filters, _ := UnpackFilters(c, e.remaining - 2);
    r := Ok(Packet(header, pktLen, Subscribe(packetId, filters)));
  }

  method UnpackTopics(c: Cursor, len: nat) returns (topics: Option<seq<string>>)
    modifies c
    ensures match TopicsAt(c.mem, old(c.pos), len)
            case None => topics == None
            case Some((ts, last)) => topics == Some(ts) && c.pos == last
  {
    var list: seq<string>, left: nat := [], len;
    ghost var goal := TopicsAt(c.mem, c.pos, len);
    assert forall ts: seq<string> :: [] + ts == ts;
    while left > 0
      invariant match TopicsAt(c.mem, c.pos, left)
                case None => goal == None
                case Some((ts, last)) => goal == Some((list + ts, last))
    {
      ghost var before := list;
      var topic := c.UnpackString16();
      list := list + [topic];
      if left < 2 + |topic| { return None; }
      left := left - (2 + |topic|);
      assert forall ts: seq<string> :: before + ([topic] + ts) == list + ts;
    }
    assert list + [] == list;
    topics := Some(list);
  }

  method UnpackUnsubscribe(header: Header, c: Cursor, available: nat) returns (r: Result)
    requires header.ptype == UNSUBSCRIBE && header.qos < 4
    modifies c
    ensures r == Framed(header, c.mem, old(c.pos), available)
  {
    var e := IsPartial(c, available);
    if e.PartialFrame? { return Partial; }
    if e.BadLength? { return Threw; }
    var firstByte := header.Pack();
    if firstByte / 2 % 2 != 1 { return Refused; }
    var pktLen := 1 + e.used + e.remaining;
    var packetId := c.UnpackU16();
    if e.remaining < 2 { return RanAway; }
    var topics := UnpackTopics(c, e.remaining - 2);
    match topics {
      case None => return RanAway;
      case Some(list) => return Ok(Packet(header, pktLen, Unsubscribe(packetId, list)));
    }
  }

  method UnpackPacket(c: Cursor, available: nat) returns (r: Result)
    requires c.pos == 0
    modifies c
    ensures r == FrameAt(c.mem, available)
  {
    var b := c.UnpackU8();
    var header := Header.Unpack(b);
    match header.ptype {
      case 1 => r := UnpackConnect(header, c, available);
      case 3 => r := UnpackPublish(header, c, available);
      case 4 => r := UnpackAck(header, c, available);
      case 5 => r := UnpackAck(header, c, available);
      case 6 => r := UnpackAck(header, c, available);
      case 7 => r := UnpackAck(header, c, available);
      case 8 => r := UnpackSubscribe(header, c, available);
      case 10 => r := UnpackUnsubscribe(header, c, available);
      case _ => r := if header.ptype > 10 then OffTable else Refused;
    }
  }
}
