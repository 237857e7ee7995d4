/** The value types of the broker: fixed header, connect flags and the control packets.

    C++ `uint8_t` and `uint16_t` are the subset types `byte` and `uint16`; shifts and masks
    on them are written as division and remainder by powers of two.
 */
module Packets {

  type byte = x: int | 0 <= x < 0x100
  type uint16 = x: int | 0 <= x < 0x1_0000

  const CONNECT: byte := 1
  const PUBLISH: byte := 3
  const PUBACK: byte := 4
  const PUBREC: byte := 5
  const PUBREL: byte := 6
  const PUBCOMP: byte := 7
  const SUBSCRIBE: byte := 8
  const UNSUBSCRIBE: byte := 10

  function Bit(b: bool): (r: byte)
  {
    if b then 1 else 0
  }

  /** The fixed header. `ptype` is the enumeration's number: a cast from a wire byte may give any of 0..15. */
  datatype Header = Header(ptype: byte, dup: bool, qos: byte, retain: bool)
  {
    predicate InRange() {
      ptype < 16 && qos < 4
    }

    function Pack(): byte
      requires InRange()
    {
      ptype * 16 + Bit(dup) * 8 + qos * 2 + Bit(retain)
    }

    static function Unpack(b: byte): (h: Header)
      ensures h.InRange()
    {
      Header(b / 16, b / 8 % 2 == 1, b / 2 % 4, b % 2 == 1)
    }
  }

  lemma HeaderRoundTrip(h: Header)
    requires h.InRange()
    ensures Header.Unpack(h.Pack()) == h
  {
    var d, r := Bit(h.dup), Bit(h.retain);
    var b := h.Pack();
    assert b / 2 == h.ptype * 8 + d * 4 + h.qos;
    assert b / 8 == h.ptype * 2 + d;
  }

  datatype ConnectFlags = ConnectFlags(
    username: bool, passwd: bool, willRetain: bool, willQos: byte, will: bool, cleanSession: bool)
  {
    function Pack(): byte
      requires willQos < 4
    {
      Bit(username) * 128 + Bit(passwd) * 64 + Bit(willRetain) * 32 + willQos * 8 + Bit(will) * 4
      + Bit(cleanSession) * 2
    }

    static function Unpack(b: byte): (cf: ConnectFlags)
      ensures cf.willQos < 4
    {
      ConnectFlags(b / 128 == 1, b / 64 % 2 == 1, b / 32 % 2 == 1, b / 8 % 4, b / 4 % 2 == 1, b / 2 % 2 == 1)
    }
  }

  lemma ConnectFlagsRoundTrip(cf: ConnectFlags)
    requires cf.willQos < 4
    ensures ConnectFlags.Unpack(cf.Pack()) == cf
  {
    HighFlags(cf);
    LowFlags(cf);
  }

  lemma HighFlags(cf: ConnectFlags)
    requires cf.willQos < 4
    ensures var f := ConnectFlags.Unpack(cf.Pack());
            f.username == cf.username && f.passwd == cf.passwd && f.willRetain == cf.willRetain
  {
    var b := cf.Pack();
    assert b / 32 == Bit(cf.username) * 4 + Bit(cf.passwd) * 2 + Bit(cf.willRetain);
    assert b / 64 == Bit(cf.username) * 2 + Bit(cf.passwd);
  }

  lemma LowFlags(cf: ConnectFlags)
    requires cf.willQos < 4
    ensures var f := ConnectFlags.Unpack(cf.Pack());
            f.willQos == cf.willQos && f.will == cf.will && f.cleanSession == cf.cleanSession
  {
    var b := cf.Pack();
    var high := Bit(cf.username) * 4 + Bit(cf.passwd) * 2 + Bit(cf.willRetain);
    assert b / 2 == high * 16 + cf.willQos * 4 + Bit(cf.will) * 2 + Bit(cf.cleanSession);
    assert b / 4 == high * 8 + cf.willQos * 2 + Bit(cf.will);
    assert b / 8 == high * 4 + cf.willQos;
  }

  /** One topic filter of a SUBSCRIBE payload with its requested QoS. */
  datatype Filter = Filter(topic: string, qos: byte)

  datatype Body =
    | Connack(ackFlags: byte, returnCode: byte)
    | Ack(packetId: uint16)
    | Connect(level: byte, cf: ConnectFlags, keepAlive: uint16, clientId: string,
              willTopic: string, willMsg: string, username: string, passwd: string)
    | Publish(topic: string, packetId: uint16, payload: seq<byte>)
    | Subscribe(packetId: uint16, filters: seq<Filter>)
    | Unsubscribe(packetId: uint16, topics: seq<string>)

  /** `pktLen` is the total length of the frame in bytes. */
  datatype Packet = Packet(header: Header, pktLen: nat, body: Body)

  /** A default-constructed `Packet{}`, which the inflight lookups return for an absent id. */
  const EMPTY_PACKET: Packet := Packet(Header(CONNECT, false, 0, false), 0, Connack(0, 0))
}
