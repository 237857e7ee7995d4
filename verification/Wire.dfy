/** The wire layout of the control packets the broker decodes, and the proof that decoding inverts it. */
module Wire {
  import opened Packets
  import opened ByteMemory
  import opened RemainingLength
  import opened Unpack
  import opened Wrappers

  // ---------------------------------------------------------------- layout

  function FilterBytes(fs: seq<Filter>): seq<byte>
    requires forall f | f in fs :: Fits16(f.topic)
  {
    if fs == [] then [] else (String16(fs[0].topic) + [fs[0].qos]) + FilterBytes(fs[1..])
  }

  function TopicBytes(ts: seq<string>): seq<byte>
    requires forall t | t in ts :: Fits16(t)
  {
    if ts == [] then [] else String16(ts[0]) + TopicBytes(ts[1..])
  }

  function Optional(s: string, present: bool): seq<byte>
    requires Fits16(s)
  {
    if present then String16(s) else []
  }

  function ConnectStrings(b: Body): seq<byte>
    requires b.Connect? && Fits16(b.clientId) && Fits16(b.willTopic) && Fits16(b.willMsg)
    requires Fits16(b.username) && Fits16(b.passwd)
  {
    String16(b.clientId) + (Optional(b.willTopic, b.cf.will) + (Optional(b.willMsg, b.cf.will)
    + (Optional(b.username, b.cf.username) + Optional(b.passwd, b.cf.passwd))))
  }

  /** A body that belongs to the header's type and whose fields fit their places on the wire. */
  predicate BodyFits(h: Header, b: Body)
  {
    match b
    case Connect(_, cf, _, clientId, willTopic, willMsg, username, passwd) =>
      && h.ptype == CONNECT
      && cf.willQos < 4 && Fits16(clientId)
      && Fits16(willTopic) && Fits16(willMsg) && Fits16(username) && Fits16(passwd)
      && (!cf.will ==> willTopic == "" && willMsg == "")
      && (!cf.username ==> username == "")
      && (!cf.passwd ==> passwd == "")
    case Publish(topic, packetId, _) =>
      h.ptype == PUBLISH && Fits16(topic) && (h.qos == 0 ==> packetId == 0)
    case Ack(_) => h.ptype in {PUBACK, PUBREC, PUBREL, PUBCOMP}
    case Subscribe(_, filters) => h.ptype == SUBSCRIBE && forall f | f in filters :: Fits16(f.topic)
    case Unsubscribe(_, topics) =>
      h.ptype == UNSUBSCRIBE && h.qos % 2 == 1 && forall t | t in topics :: Fits16(t)
    case Connack(_, _) => false
  }

  /** Variable header and payload: sections 3.1, 3.3, 3.4, 3.8 and 3.10 of MQTT 3.1.1. */
  function Content(h: Header, b: Body): seq<byte>
    requires BodyFits(h, b)
  {
    match b
    case Connect(level, cf, keepAlive, clientId, willTopic, willMsg, username, passwd) =>
      String16("MQTT") + ([level, cf.Pack()] + (U16(keepAlive) + ConnectStrings(b)))
    case Publish(topic, packetId, payload) =>
      String16(topic) + ((if h.qos > 0 then U16(packetId) else []) + payload)
    case Ack(packetId) => U16(packetId)
    case Subscribe(packetId, filters) => U16(packetId) + FilterBytes(filters)
    case Unsubscribe(packetId, topics) => U16(packetId) + TopicBytes(topics)
  }

  /** A well-formed packet: its length field is true and its remaining length is one that the
      broker's three-byte decoder accepts. */
  predicate WellFormed(p: Packet)
  {
    && p.header.InRange() && BodyFits(p.header, p.body)
    && var n := |Content(p.header, p.body)|;
       n < 128 * 128 * 128 && p.pktLen == 1 + |Encoded(n)| + n
  }

  function Frame(p: Packet): (r: seq<byte>)
    requires WellFormed(p)
    ensures |r| == p.pktLen >= 2
  {
    var content := Content(p.header, p.body);
    [p.header.Pack()] + (Encoded(|content|) + content)
  }

  // ---------------------------------------------------------------- the list loops

  /** SUBSCRIBE payloads: the loop returns the list in order, counts down to exactly zero and
      leaves the cursor at the end of the bytes. */
  lemma {:induction false} FiltersRoundTrip(mem: Memory, pos: nat, fs: seq<Filter>)
    requires forall f | f in fs :: Fits16(f.topic)
    requires At(mem, pos, FilterBytes(fs))
    ensures FiltersAt(mem, pos, |FilterBytes(fs)|) == fs
    ensures FiltersEnd(mem, pos, |FilterBytes(fs)|) == (pos + |FilterBytes(fs)|, 0)
    decreases |fs|
  {
    if fs != [] {
      FilterRoundTrip(mem, pos, fs[0], FilterBytes(fs[1..]));
      FiltersRoundTrip(mem, StringEnd(mem, pos) + 1, fs[1..]);
      assert fs == [fs[0]] + fs[1..];
    }
  }

  /** One filter, and what follows it. */
  lemma FilterRoundTrip(mem: Memory, pos: nat, f: Filter, rest: seq<byte>)
    requires Fits16(f.topic) && At(mem, pos, String16(f.topic) + [f.qos] + rest)
    ensures StringAt(mem, pos) == f.topic && StringEnd(mem, pos) == pos + 2 + |f.topic|
    ensures mem(StringEnd(mem, pos)) == f.qos && At(mem, StringEnd(mem, pos) + 1, rest)
  {
    var s := String16(f.topic);
    AtSplit(mem, pos, s + [f.qos], rest);
    AtSplit(mem, pos, s, [f.qos]);
    AtHead(mem, pos + |s|, [f.qos]);
    String16RoundTrip(mem, pos, f.topic);
  }

  /** UNSUBSCRIBE payloads, likewise; the unsigned count never passes zero. */
  lemma {:induction false} TopicsRoundTrip(mem: Memory, pos: nat, ts: seq<string>)
    requires forall t | t in ts :: Fits16(t)
    requires At(mem, pos, TopicBytes(ts))
    ensures TopicsAt(mem, pos, |TopicBytes(ts)|) == Some((ts, pos + |TopicBytes(ts)|))
    decreases |ts|
  {
    if ts != [] {
      var s := String16(ts[0]);
      AtSplit(mem, pos, s, TopicBytes(ts[1..]));
      String16RoundTrip(mem, pos, ts[0]);
      TopicsRoundTrip(mem, pos + |s|, ts[1..]);
      assert ts == [ts[0]] + ts[1..];
    }
  }

  // ---------------------------------------------------------------- the other bodies

  lemma OptionalRoundTrip(mem: Memory, pos: nat, s: string, present: bool)
    requires Fits16(s) && (!present ==> s == "")
    requires At(mem, pos, Optional(s, present))
    ensures OptionalAt(mem, pos, present) == s
    ensures OptionalEnd(mem, pos, present) == pos + |Optional(s, present)|
  {
    if present { String16RoundTrip(mem, pos, s); }
  }

  /** One optional string, and what follows it. */
  lemma OptionalThen(mem: Memory, pos: nat, s: string, present: bool, rest: seq<byte>)
    requires Fits16(s) && (!present ==> s == "")
    requires At(mem, pos, Optional(s, present) + rest)
    ensures OptionalAt(mem, pos, present) == s && At(mem, OptionalEnd(mem, pos, present), rest)
  {
    AtSplit(mem, pos, Optional(s, present), rest);
    OptionalRoundTrip(mem, pos, s, present);
  }

  lemma ConnectStringsRoundTrip(h: Header, b: Body, mem: Memory, pos: nat)
    requires b.Connect? && BodyFits(h, b) && At(mem, pos, ConnectStrings(b))
    ensures ConnectPayloadAt(mem, pos, b.level, b.cf, b.keepAlive) == b
  {
    var cf := b.cf;
    var t4 := Optional(b.username, cf.username) + Optional(b.passwd, cf.passwd);
    var t3 := Optional(b.willMsg, cf.will) + t4;
    AtSplit(mem, pos, String16(b.clientId), Optional(b.willTopic, cf.will) + t3);
    String16RoundTrip(mem, pos, b.clientId);
    var p1 := StringEnd(mem, pos);
    OptionalThen(mem, p1, b.willTopic, cf.will, t3);
    var p2 := OptionalEnd(mem, p1, cf.will);
    OptionalThen(mem, p2, b.willMsg, cf.will, t4);
    var p3 := OptionalEnd(mem, p2, cf.will);
    OptionalThen(mem, p3, b.username, cf.username, Optional(b.passwd, cf.passwd));
    OptionalRoundTrip(mem, OptionalEnd(mem, p3, cf.username), b.passwd, cf.passwd);
  }

  /** What stands before the keep-alive time of a CONNECT. */
  lemma ConnectHead(mem: Memory, pos: nat, level: byte, flags: byte, rest: seq<byte>)
    requires At(mem, pos, String16("MQTT") + ([level, flags] + rest))
    ensures StringAt(mem, pos) == "MQTT" && StringEnd(mem, pos) == pos + 6
    ensures mem(pos + 6) == level && mem(pos + 7) == flags && At(mem, pos + 8, rest)
  {
    AtSplit(mem, pos, String16("MQTT"), [level, flags] + rest);
    String16RoundTrip(mem, pos, "MQTT");
    AtSplit(mem, pos + 6, [level, flags], rest);
    TwoBytes(mem, pos + 6, level, flags);
  }

  lemma TwoBytes(mem: Memory, pos: nat, first: byte, second: byte)
    requires At(mem, pos, [first, second])
    ensures mem(pos) == first && mem(pos + 1) == second
  {
    assert [first, second] == [first] + [second];
    AtSplit(mem, pos, [first], [second]);
    AtHead(mem, pos, [first]);
    AtHead(mem, pos + 1, [second]);
  }

  lemma ConnectRoundTrip(h: Header, b: Body, mem: Memory, pos: nat)
    requires b.Connect? && BodyFits(h, b) && At(mem, pos, Content(h, b))
    ensures ConnectAt(mem, pos) == Some(b)
  {
    ConnectHead(mem, pos, b.level, b.cf.Pack(), U16(b.keepAlive) + ConnectStrings(b));
    ConnectFlagsRoundTrip(b.cf);
    AtSplit(mem, pos + 8, U16(b.keepAlive), ConnectStrings(b));
    U16RoundTrip(mem, pos + 8, b.keepAlive);
    ConnectStringsRoundTrip(h, b, mem, pos + 10);
  }

  lemma PublishRoundTrip(h: Header, b: Body, mem: Memory, pos: nat)
    requires b.Publish? && BodyFits(h, b) && At(mem, pos, Content(h, b))
    ensures PublishAt(mem, pos, h.qos, |Content(h, b)|) == Some(b)
  {
    var id := if h.qos > 0 then U16(b.packetId) else [];
    AtSplit(mem, pos, String16(b.topic), id + b.payload);
    String16RoundTrip(mem, pos, b.topic);
    var p := StringEnd(mem, pos);
    AtSplit(mem, p, id, b.payload);
    if h.qos > 0 { U16RoundTrip(mem, p, b.packetId); }
    assert BytesAt(mem, p + |id|, |b.payload|) == b.payload;
  }

  lemma BodyRoundTrip(p: Packet, mem: Memory, pos: nat)
    requires WellFormed(p) && At(mem, pos, Content(p.header, p.body))
    ensures BodyAt(p.header, p.pktLen, mem, pos, |Content(p.header, p.body)|) == Ok(p)
  {
    match p.body {
      case Connect(_, _, _, _, _, _, _, _) => ConnectRoundTrip(p.header, p.body, mem, pos);
      case Publish(_, _, _) => PublishRoundTrip(p.header, p.body, mem, pos);
      case Ack(id) => U16RoundTrip(mem, pos, id);
      case Subscribe(id, filters) =>
        AtSplit(mem, pos, U16(id), FilterBytes(filters));
        U16RoundTrip(mem, pos, id);
        FiltersRoundTrip(mem, pos + 2, filters);
      case Unsubscribe(id, topics) =>
        AtSplit(mem, pos, U16(id), TopicBytes(topics));
        U16RoundTrip(mem, pos, id);
        TopicsRoundTrip(mem, pos + 2, topics);
    }
  }

  // ---------------------------------------------------------------- whole frames and prefixes

  lemma FrameHeader(p: Packet, mem: Memory)
    requires WellFormed(p) && mem(0) == Frame(p)[0]
    ensures Header.Unpack(mem(0)) == p.header && HasDecoder(p.header.ptype)
  {
    HeaderRoundTrip(p.header);
  }

  lemma WholeFrame(first: byte, content: seq<byte>, mem: Memory, available: nat)
    requires |content| < 128 * 128 * 128
    requires At(mem, 0, [first] + (Encoded(|content|) + content))
    requires available >= 1 + |Encoded(|content|)| + |content|
    ensures mem(0) == first && At(mem, 1 + |Encoded(|content|)|, content)
    ensures ExtentAt(mem, 1, available) == Whole(|Encoded(|content|)|, |content|)
  {
    var n := |content|;
    AtSplit(mem, 0, [first], Encoded(n) + content);
    AtHead(mem, 0, [first]);
    AtSplit(mem, 1, Encoded(n), content);
    DecodeInvertsEncode(n, mem, 1, available);
  }

  /** Decoding a buffer that starts with a well-formed frame gives exactly that packet, whatever
      follows the frame. */
  lemma FrameRoundTrip(p: Packet, mem: Memory, available: nat)
    requires WellFormed(p) && At(mem, 0, Frame(p)) && available >= p.pktLen
    ensures FrameAt(mem, available) == Ok(p)
  {
    var content := Content(p.header, p.body);
    WholeFrame(p.header.Pack(), content, mem, available);
    FrameHeader(p, mem);
    BodyRoundTrip(p, mem, 1 + |Encoded(|content|)|);
  }

  /** Every nonempty proper prefix of a well-formed frame is judged partial. Nothing is assumed of
      memory from address `a` on, so the verdict does not depend on the byte one past the end that
      the length decoder may look at. */
  lemma ProperPrefixIsPartial(p: Packet, mem: Memory, a: nat)
    requires WellFormed(p) && 0 < a < p.pktLen && At(mem, 0, Frame(p)[..a])
    ensures FrameAt(mem, a) == Partial
  {
    var content := Content(p.header, p.body);
    var n, f := |content|, Frame(p);
    var k := |Encoded(n)|;
    assert mem(0 + 0) == f[..a][0];
    FrameHeader(p, mem);
    assert k <= 3 by { assert Pow128(3) == 128 * (128 * Pow128(1)); EncodedSize(n, 3); }
    if 1 < a {
      if a <= k {
        forall i: nat | i < a - 1 ensures mem(1 + 0 + i) == Encoded(n)[i] {
          assert mem(0 + (1 + i)) == f[..a][1 + i];
        }
        DecodeOfPrefix(n, mem, 1, 0, a);
      } else {
        forall i: nat | i < k ensures mem(1 + i) == Encoded(n)[i] {
          assert mem(0 + (1 + i)) == f[..a][1 + i];
        }
        DecodeOfField(n, mem, 1, 0, a);
      }
    }
  }
}
