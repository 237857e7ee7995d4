/** The persistent state of one client. */
module Sessions {
  import opened Packets
  import opened Wrappers
  import opened InflightHistory

  /** A `ClientSession` as a value. `history` and `routed` are not fields of the original: they
      record the events that have hit the session and the packets its PUBRELs have routed. */
  datatype Session = Session(
    clientId: string,
    keepAlive: uint16,
    cleanSession: bool,
    connected: bool,
    transport: Option<nat>,
    expiryMs: int,
    lastActivity: int,
    inflight: map<uint16, Packet>,
    inflightAck: map<uint16, Packet>,
    messageQueue: seq<Packet>,
    nextPacketId: uint16,
    history: seq<Event>,
    routed: seq<Packet>)
  {
    /** 1.5 times the keep-alive interval, which is given in seconds. */
    function Deadline(): int
    {
      lastActivity + keepAlive * 1500
    }

    function NextId(): uint16
    {
      if nextPacketId == 0xFFFF then 1 else nextPacketId + 1
    }

    function Saw(e: Event): Session
    {
      this.(history := history + [e])
    }
  }

  function NewSession(clientId: string): Session
  {
    Session(clientId, 0, false, false, None, 0, 0, map[], map[], [], 1, [], [])
  }

  class ClientSession {
    const clientId: string
    var keepAlive: uint16
    var cleanSession: bool
    var connected: bool
    var transport: Option<nat>          // the weak reference to the MqttSession
    var expiryMs: int
    var lastActivity: int
    var inflight: map<uint16, Packet>
    var inflightAck: map<uint16, Packet>
    var messageQueue: seq<Packet>
    var nextPacketId: uint16
    ghost var history: seq<Event>
    ghost var routed: seq<Packet>

    ghost function Data(): Session
      reads this
    {
      Session(clientId, keepAlive, cleanSession, connected, transport, expiryMs, lastActivity,
              inflight, inflightAck, messageQueue, nextPacketId, history, routed)
    }

    constructor (clientId: string)
      ensures Data() == NewSession(clientId)
    {
      this.clientId := clientId;
      keepAlive, cleanSession, connected, transport := 0, false, false, None;
      expiryMs, lastActivity := 0, 0;
      inflight, inflightAck, messageQueue, nextPacketId := map[], map[], [], 1;
      history, routed := [], [];
    }

    /** `++next_packet_id`, a 16-bit counter that skips 0. */
    method AllocatePacketId() returns (id: uint16)
      modifies this`nextPacketId
      ensures id == old(Data()).NextId() && Data() == old(Data()).(nextPacketId := id)
    {
      nextPacketId := (nextPacketId + 1) % 0x1_0000;
      if nextPacketId == 0 {
        nextPacketId := 1;
        return nextPacketId;
      }
      return nextPacketId;
    }

    method StoreInflight(packet: Packet)
      requires packet.body.Publish?
      modifies this`inflight
      ensures Data() == old(Data()).(inflight := InsertIfAbsent(old(inflight), packet.body.packetId, packet))
    {
      if packet.body.packetId !in inflight {
        inflight := inflight[packet.body.packetId := packet];
      }
    }

    method StoreInflightAcknowledgement(packet: Packet)
      requires packet.body.Ack?
      modifies this`inflightAck
      ensures Data() == old(Data()).(inflightAck := InsertIfAbsent(old(inflightAck), packet.body.packetId, packet))
    {
      if packet.body.packetId !in inflightAck {
        inflightAck := inflightAck[packet.body.packetId := packet];
      }
    }

    method RemoveFromInflight(id: uint16) returns (packet: Packet)
      modifies this`inflight
      ensures packet == if id in old(inflight) then old(inflight)[id] else EMPTY_PACKET
      ensures Data() == old(Data()).(inflight := old(inflight) - {id})
    {
      if id in inflight {
        packet := inflight[id];
        inflight := inflight - {id};
        return;
      }
      assert inflight - {id} == inflight;
      packet := EMPTY_PACKET;
    }

    method RemoveFromInflightAcknowledgement(id: uint16) returns (packet: Packet)
      modifies this`inflightAck
      ensures packet == if id in old(inflightAck) then old(inflightAck)[id] else EMPTY_PACKET
      ensures Data() == old(Data()).(inflightAck := old(inflightAck) - {id})
    {
      if id in inflightAck {
        packet := inflightAck[id];
        inflightAck := inflightAck - {id};
        return;
      }
      assert inflightAck - {id} == inflightAck;
      packet := EMPTY_PACKET;
    }

    function GetPacket(id: uint16, ptype: byte): (packet: Packet)
      reads this
      ensures packet == StoredPacket(Data(), id, ptype)
    {
      if ptype == PUBLISH
      then if id in inflight then inflight[id] else EMPTY_PACKET
      else if id in inflightAck then inflightAck[id] else EMPTY_PACKET
    }

    method StoreMessage(packet: Packet)
      modifies this`messageQueue
      ensures Data() == old(Data()).(messageQueue := old(messageQueue) + [packet])
    {
      messageQueue := messageQueue + [packet];
    }
  }

  /** What a lookup of a stored packet returns. */
  ghost function StoredPacket(d: Session, id: uint16, ptype: byte): Packet
  {
    if ptype == PUBLISH
    then if id in d.inflight then d.inflight[id] else EMPTY_PACKET
    else if id in d.inflightAck then d.inflightAck[id] else EMPTY_PACKET
  }
}
