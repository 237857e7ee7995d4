/** The packet handlers. Each changes the session manager as one step of the broker. */
module PacketHandlers {
  import opened Packets
  import opened Wrappers
  import opened InflightHistory
  import opened Sessions
  import opened BrokerModel
  import opened BrokerInvariants
  import opened TopicHistory
  import opened TopicTrees
  import opened TreeSteps
  import opened SessionManagers

  const MQTT_OK := 0
  const MQTT_ERR := 1
  const MQTT_CONNECTION_ACCEPTED := 6
  const MQTT_UNACCEPTABLE_PROTOCOL_VERSION := 7

  /** What a handler comes to: its return code, or a null session, which the original dereferences
      when a client without a registered session sends what needs one. */
  datatype Outcome = Returned(code: int) | NullSession

  // ---------------------------------------------------------------- what handlers do to a session

  /** The packet is stored unless one with the same id is there already. A stored packet of length 0
      would count as absent; what is stored then is still the old one. */
  method StoreOnce(m: ManageSessions, cs: ClientSession, packet: Packet)
    requires m.Sound() && cs in m.created && packet.body.Publish?
    modifies cs`inflight, cs`history
    ensures m.Sound() && unchanged(m.topicTree) && unchanged(m.topicTree.repr)
    ensures m.View() == With(old(m.View()), cs, Store(old(cs.Data()), packet, GotPublish(packet)))
  {
    ghost var b := m.View();
    var present := cs.GetPacket(packet.body.packetId, PUBLISH);
    if present.pktLen == 0 {
      cs.StoreInflight(packet);
    }
    Witness(cs, GotPublish(packet));
    assert m.View().sessions == b.sessions[cs := cs.Data()];
  }

  method DropPublish(m: ManageSessions, cs: ClientSession, id: uint16)
    requires m.Sound() && cs in m.created
    modifies cs`inflight, cs`history
    ensures m.Sound() && m.View() == With(old(m.View()), cs, Pubacked(old(cs.Data()), id))
  {
    ghost var b := m.View();
    var packet := cs.RemoveFromInflight(id);
    Witness(cs, GotPuback(id));
    assert m.View().sessions == b.sessions[cs := cs.Data()];
  }

  method KeepPubrel(m: ManageSessions, cs: ClientSession, id: uint16)
    requires m.Sound() && cs in m.created
    modifies cs`inflightAck, cs`history
    ensures m.Sound() && m.View() == With(old(m.View()), cs, Pubrecced(old(cs.Data()), id))
  {
    ghost var b := m.View();
    cs.StoreInflightAcknowledgement(BuildAck(id, PUBREL));
    Witness(cs, GotPubrec(id));
    assert m.View().sessions == b.sessions[cs := cs.Data()];
  }

  method DropPubrel(m: ManageSessions, cs: ClientSession, id: uint16)
    requires m.Sound() && cs in m.created
    modifies cs`inflightAck, cs`history
    ensures m.Sound() && m.View() == With(old(m.View()), cs, Pubcomped(old(cs.Data()), id))
  {
    ghost var b := m.View();
    var packet := cs.RemoveFromInflightAcknowledgement(id);
    Witness(cs, GotPubcomp(id));
    assert m.View().sessions == b.sessions[cs := cs.Data()];
  }

  method ReleasePublish(m: ManageSessions, cs: ClientSession, id: uint16) returns (packet: Packet)
    requires m.Sound() && cs in m.created
    modifies cs`inflight, cs`history, cs`routed
    ensures m.Sound() && unchanged(m.topicTree) && unchanged(m.topicTree.repr)
    ensures packet == StoredPacket(old(cs.Data()), id, PUBLISH)
    ensures m.View() == With(old(m.View()), cs, Released(old(cs.Data()), id))
  {
    ghost var b := m.View();
    packet := TakeOut(cs, id);
    assert m.View().sessions == b.sessions[cs := cs.Data()];
  }

  method TakeOut(cs: ClientSession, id: uint16) returns (packet: Packet)
    modifies cs`inflight, cs`history, cs`routed
    ensures packet == StoredPacket(old(cs.Data()), id, PUBLISH)
    ensures cs.Data() == Released(old(cs.Data()), id)
  {
    packet := cs.RemoveFromInflight(id);
    if packet.header.ptype == PUBLISH { NoteRouted(cs, packet); }
    Witness(cs, GotPubrel(id));
  }

  ghost method Witness(cs: ClientSession, e: Event)
    modifies cs`history
    ensures cs.Data() == old(cs.Data()).Saw(e)
  {
    cs.history := cs.history + [e];
  }

  ghost method NoteRouted(cs: ClientSession, packet: Packet)
    modifies cs`routed
    ensures cs.Data() == old(cs.Data()).(routed := old(cs.routed) + [packet])
  {
    cs.routed := cs.routed + [packet];
  }

  /** The packet that `build_ack` returns: 4 bytes long and without flags. */
  function BuildAck(id: uint16, ptype: byte): Packet
  {
    Packet(Header(ptype, false, 0, false), 4, Ack(id))
  }

  // ---------------------------------------------------------------- acknowledgements

  method PubackHandler(m: ManageSessions, client: string, pkt: Packet, now: int) returns (r: Outcome)
    requires m.Sound()
    modifies m`clock, m.created
    ensures m.Sound()
    ensures if pkt.body.Ack? then m.View() == HandlePuback(old(m.View()), client, pkt.body.packetId, now)
            else m.View() == old(m.View())
    ensures r == if !pkt.body.Ack? then Returned(-MQTT_ERR)
                 else if client in old(m.registry) then Returned(MQTT_OK) else NullSession
  {
    if !pkt.body.Ack? { return Returned(-MQTT_ERR); }
    m.UpdateActivity(client, now);
    var cs := m.SessionPresent(client);
    if cs == None { return NullSession; }
    DropPublish(m, cs.value, pkt.body.packetId);
    return Returned(MQTT_OK);
  }

  method PubrecHandler(m: ManageSessions, t: nat, client: string, pkt: Packet, now: int) returns (r: Outcome)
    requires m.Sound()
    modifies m`clock, m`sent, m.created
    ensures m.Sound()
    ensures if pkt.body.Ack? then m.View() == HandlePubrec(old(m.View()), t, client, pkt.body.packetId, now)
            else m.View() == old(m.View())
    ensures r == if !pkt.body.Ack? then Returned(-MQTT_ERR)
                 else if client in old(m.registry) then Returned(MQTT_OK) else NullSession
  {
    if !pkt.body.Ack? { return Returned(-MQTT_ERR); }
    m.UpdateActivity(client, now);
    var cs := m.SessionPresent(client);
    if cs == None { return NullSession; }
    KeepPubrel(m, cs.value, pkt.body.packetId);
    m.Write(SentAck(t, PUBREL, pkt.body.packetId));
    return Returned(MQTT_OK);
  }

  method PubcompHandler(m: ManageSessions, client: string, pkt: Packet, now: int) returns (r: Outcome)
    requires m.Sound()
    modifies m`clock, m.created
    ensures m.Sound()
    ensures if pkt.body.Ack? then m.View() == HandlePubcomp(old(m.View()), client, pkt.body.packetId, now)
            else m.View() == old(m.View())
    ensures r == if !pkt.body.Ack? then Returned(-MQTT_ERR)
                 else if client in old(m.registry) then Returned(MQTT_OK) else NullSession
  {
    if !pkt.body.Ack? { return Returned(-MQTT_ERR); }
    m.UpdateActivity(client, now);
    var cs := m.SessionPresent(client);
    if cs == None { return NullSession; }
    DropPubrel(m, cs.value, pkt.body.packetId);
    return Returned(MQTT_OK);
  }

  method PingreqHandler(m: ManageSessions, t: nat, client: string, now: int) returns (r: Outcome)
    requires m.Sound()
    modifies m`clock, m`sent, m.created
    ensures m.Sound() && m.View() == HandlePingreq(old(m.View()), t, client, now) && r == Returned(-MQTT_ERR)
  {
    m.UpdateActivity(client, now);
    m.Write(SentPing(t));
    return Returned(-MQTT_ERR);
  }

  // ---------------------------------------------------------------- PUBLISH and PUBREL

  /** A packet heard from a client is routed at once. */
  method RouteNow(m: ManageSessions, client: string, pkt: Packet, now: int)
    returns (ghost ms: seq<Match<ClientSession>>, ghost entries: seq<Entry<Subscription>>)
    requires m.Sound() && m.topicTree.Valid() && Routable(pkt)
    modifies m`clock, m`sent, m.created, m.retransmitHeap, m.topicTree, m.topicTree.repr
    ensures m.Sound() && m.topicTree.Valid() && m.topicTree.Grows()
    ensures m.View() == Route(Touch(old(m.View()), client, now), pkt, ms, now).b
    ensures Matched(old(m.topicTree.ops), m.topicTree.ops, pkt.body.topic, entries, ms)
  {
    m.UpdateActivity(client, now);
    ms, entries := m.RoutePacket(pkt, now);
  }

  /** A packet heard from a client is stored until its PUBREL. */
  method StoreForLater(m: ManageSessions, t: nat, client: string, pkt: Packet, now: int) returns (r: Outcome)
    requires m.Sound() && pkt.body.Publish? && pkt.header.qos >= 2
    modifies m`clock, m`sent, m.created
    ensures m.Sound() && unchanged(m.topicTree) && unchanged(m.topicTree.repr)
    ensures m.View() == HandlePublish(old(m.View()), t, client, pkt, [], now)
    ensures r == if client in old(m.registry) then Returned(MQTT_OK) else NullSession
  {
    m.UpdateActivity(client, now);
    var cs := m.SessionPresent(client);
    if cs == None { return NullSession; }
    StoreOnce(m, cs.value, pkt);
    m.Write(SentAck(t, PUBREC, pkt.body.packetId));
    return Returned(MQTT_OK);
  }

  /** A packet whose body is another is refused; the decoder gives PUBLISH bodies to PUBLISH headers only. */
  method PublishHandler(m: ManageSessions, t: nat, client: string, pkt: Packet, now: int)
    returns (r: Outcome, ghost ms: seq<Match<ClientSession>>, ghost entries: seq<Entry<Subscription>>)
    requires m.Sound() && m.topicTree.Valid() && (pkt.body.Publish? ==> pkt.header.ptype == PUBLISH)
    modifies m`clock, m`sent, m.created, m.retransmitHeap, m.topicTree, m.topicTree.repr
    ensures m.Sound() && m.topicTree.Valid() && m.topicTree.Grows()
    ensures m.View() == if pkt.body.Publish? then HandlePublish(old(m.View()), t, client, pkt, ms, now) else old(m.View())
    ensures if pkt.body.Publish? && pkt.header.qos < 2
            then Matched(old(m.topicTree.ops), m.topicTree.ops, pkt.body.topic, entries, ms)
            else m.topicTree.ops == old(m.topicTree.ops)
    ensures r == if !pkt.body.Publish? then Returned(-MQTT_ERR)
                 else if pkt.header.qos < 2 || client in old(m.registry) then Returned(MQTT_OK) else NullSession
  {
    if !pkt.body.Publish? { return Returned(-MQTT_ERR), [], []; }
    r, ms, entries := ServePublish(m, t, client, pkt, now);
  }

  /** QoS 0 and 1 are routed at once; anything above is stored. */
  method ServePublish(m: ManageSessions, t: nat, client: string, pkt: Packet, now: int)
    returns (r: Outcome, ghost ms: seq<Match<ClientSession>>, ghost entries: seq<Entry<Subscription>>)
    requires m.Sound() && m.topicTree.Valid() && Routable(pkt)
    modifies m`clock, m`sent, m.created, m.retransmitHeap, m.topicTree, m.topicTree.repr
    ensures m.Sound() && m.topicTree.Valid() && m.topicTree.Grows()
    ensures m.View() == HandlePublish(old(m.View()), t, client, pkt, ms, now)
    ensures if pkt.header.qos < 2 then Matched(old(m.topicTree.ops), m.topicTree.ops, pkt.body.topic, entries, ms)
            else m.topicTree.ops == old(m.topicTree.ops)
    ensures r == if pkt.header.qos < 2 || client in old(m.registry) then Returned(MQTT_OK) else NullSession
  {
    ms, entries, r := [], [], Returned(MQTT_OK);
    if pkt.header.qos == 0 {
      ms, entries := RouteNow(m, client, pkt, now);
    } else if pkt.header.qos == 1 {
      ms, entries := RouteNow(m, client, pkt, now);
      m.Write(SentAck(t, PUBACK, pkt.body.packetId));
    } else {
      r := StoreForLater(m, t, client, pkt, now);
    }
  }

  ghost predicate HoldsPublishes(d: Session)
  {
    forall id | id in d.inflight :: IsPublish(d.inflight[id])
  }

  lemma StoredArePublishes<S>(b: Broker<S>, s: S)
    requires StorageInv(b) && s in b.sessions
    ensures HoldsPublishes(b.sessions[s])
  {
    assert HistoryOk(b.sessions[s]);
    StoredPackets(b.sessions[s].history);
  }

  /** The stored packet is taken out of `inflight` and routed, if there is one. */
  method RouteReleased(m: ManageSessions, cs: ClientSession, id: uint16, now: int)
    returns (found: bool, ghost ms: seq<Match<ClientSession>>, ghost entries: seq<Entry<Subscription>>)
    requires m.Sound() && m.topicTree.Valid() && cs in m.created && HoldsPublishes(cs.Data())
    modifies m`sent, m.created, m.retransmitHeap, m.topicTree, m.topicTree.repr
    ensures m.Sound() && m.topicTree.Valid() && m.topicTree.Grows()
    ensures found == (id in old(cs.inflight))
    ensures m.View() == ReleaseAndRoute(old(m.View()), cs, id, ms, now)
    ensures Rerouted(old(cs.Data()), id, old(m.topicTree.ops), m.topicTree.ops, entries, ms)
  {
    ms, entries, found := [], [], false;
    assert m.View().sessions[cs] == cs.Data();
    var packet := ReleasePublish(m, cs, id);
    if packet.header.ptype == PUBLISH {
      ms, entries := m.RoutePacket(packet, now);
      found := true;
    }
  }

  method PubrelHandler(m: ManageSessions, t: nat, client: string, pkt: Packet, now: int)
    returns (r: Outcome, ghost ms: seq<Match<ClientSession>>, ghost entries: seq<Entry<Subscription>>)
    requires m.Sound() && m.topicTree.Valid()
    requires client in m.registry ==> HoldsPublishes(m.registry[client].Data())
    modifies m`clock, m`sent, m.created, m.retransmitHeap, m.topicTree, m.topicTree.repr
    ensures m.Sound() && m.topicTree.Valid() && m.topicTree.Grows()
    ensures m.View() == if pkt.body.Ack? then HandlePubrel(old(m.View()), t, client, pkt.body.packetId, ms, now)
                        else old(m.View())
    ensures if pkt.body.Ack? && client in old(m.registry)
            then Rerouted(old(m.registry[client].Data()), pkt.body.packetId,
                          old(m.topicTree.ops), m.topicTree.ops, entries, ms)
            else m.topicTree.ops == old(m.topicTree.ops)
    ensures r == if !pkt.body.Ack? then Returned(-MQTT_ERR)
                 else if client !in old(m.registry) then NullSession
                 else if pkt.body.packetId in old(m.registry[client].inflight) then Returned(MQTT_OK)
                 else Returned(-MQTT_ERR)
  {
    if !pkt.body.Ack? { return Returned(-MQTT_ERR), [], []; }
    r, ms, entries := ServePubrel(m, t, client, pkt, now);
  }

  /** A stored packet is routed by its PUBREL; PUBCOMP is sent in any case. */
  method ServePubrel(m: ManageSessions, t: nat, client: string, pkt: Packet, now: int)
    returns (r: Outcome, ghost ms: seq<Match<ClientSession>>, ghost entries: seq<Entry<Subscription>>)
    requires m.Sound() && m.topicTree.Valid() && pkt.body.Ack?
    requires client in m.registry ==> HoldsPublishes(m.registry[client].Data())
    modifies m`clock, m`sent, m.created, m.retransmitHeap, m.topicTree, m.topicTree.repr
    ensures m.Sound() && m.topicTree.Valid() && m.topicTree.Grows()
    ensures m.View() == HandlePubrel(old(m.View()), t, client, pkt.body.packetId, ms, now)
    ensures if client in old(m.registry)
            then Rerouted(old(m.registry[client].Data()), pkt.body.packetId,
                          old(m.topicTree.ops), m.topicTree.ops, entries, ms)
            else m.topicTree.ops == old(m.topicTree.ops)
    ensures r == if client !in old(m.registry) then NullSession
                 else if pkt.body.packetId in old(m.registry[client].inflight) then Returned(MQTT_OK)
                 else Returned(-MQTT_ERR)
  {
    ms, entries := [], [];
    m.UpdateActivity(client, now);
    var cs := m.SessionPresent(client);
    if cs == None { return NullSession, ms, entries; }
    assert m.View().sessions[cs.value] == cs.value.Data();
    var found;
    found, ms, entries := RouteReleased(m, cs.value, pkt.body.packetId, now);
    m.Write(SentAck(t, PUBCOMP, pkt.body.packetId));
    r := Returned(if found then MQTT_OK else -MQTT_ERR);
  }

  // ---------------------------------------------------------------- SUBSCRIBE

  method SubscribeHandler(m: ManageSessions, t: nat, client: string, pkt: Packet, now: int) returns (r: Outcome)
    requires m.Sound() && m.topicTree.Valid()
    modifies m`clock, m`sent, m.created, m.topicTree, m.topicTree.repr
    ensures m.Sound() && m.topicTree.Valid() && m.topicTree.Grows()
    ensures if pkt.body.Subscribe?
            then m.View() == HandleSubscribe(old(m.View()), t, client, pkt.body.packetId, pkt.body.filters, now)
                 && m.topicTree.ops == old(m.topicTree.ops) + Subscribed(m.registry, client, pkt.body.filters)
            else m.View() == old(m.View()) && m.topicTree.ops == old(m.topicTree.ops)
    ensures r == Returned(if pkt.body.Subscribe? then MQTT_OK else -MQTT_ERR)
  {
    if !pkt.body.Subscribe? { return Returned(-MQTT_ERR); }
    r := ServeSubscribe(m, t, client, pkt, now);
  }

  /** Filters with a QoS up to 2 are subscribed in order and granted; any other is refused. */
  method ServeSubscribe(m: ManageSessions, t: nat, client: string, pkt: Packet, now: int) returns (r: Outcome)
    requires m.Sound() && m.topicTree.Valid() && pkt.body.Subscribe?
    modifies m`clock, m`sent, m.created, m.topicTree, m.topicTree.repr
    ensures m.Sound() && m.topicTree.Valid() && m.topicTree.Grows()
    ensures m.View() == HandleSubscribe(old(m.View()), t, client, pkt.body.packetId, pkt.body.filters, now)
    ensures m.topicTree.ops == old(m.topicTree.ops) + Subscribed(m.registry, client, pkt.body.filters)
    ensures r == Returned(MQTT_OK)
  {
    m.UpdateActivity(client, now);
    var codes := SubscribeEach(m, client, pkt.body.filters);
    m.Write(SentSuback(t, pkt.body.packetId, codes));
    return Returned(MQTT_OK);
  }

  method SubscribeEach(m: ManageSessions, client: string, fs: seq<Filter>) returns (codes: seq<byte>)
    requires m.Sound() && m.topicTree.Valid()
    modifies m.topicTree, m.topicTree.repr
    ensures m.Sound() && m.topicTree.Valid() && m.topicTree.Grows()
    ensures m.View() == old(m.View()) && codes == SubackCodes(fs)
    ensures m.topicTree.ops == old(m.topicTree.ops) + Subscribed(m.registry, client, fs)
  {
    codes := [];
    for i := 0 to |fs|
      invariant m.Sound() && m.topicTree.Valid() && m.topicTree.Grows()
      invariant m.View() == old(m.View()) && codes == SubackCodes(fs[..i])
      invariant m.topicTree.ops == old(m.topicTree.ops) + Subscribed(m.registry, client, fs[..i])
    {
      SubscribedNext(old(m.topicTree.ops), m.registry, client, fs, i);
      var code := SubscribeOne(m, client, fs[i]);
      codes := codes + [code];
    }
    assert fs[..|fs|] == fs;
  }

  method SubscribeOne(m: ManageSessions, client: string, f: Filter) returns (code: byte)
    requires m.Sound() && m.topicTree.Valid()
    modifies m.topicTree, m.topicTree.repr
    ensures m.Sound() && m.View() == old(m.View()) && m.topicTree.Valid() && m.topicTree.Grows()
    ensures code == if f.qos < 3 then f.qos else 0x80
    ensures m.topicTree.ops == old(m.topicTree.ops) +
              if client in m.registry then SubscribeOp(f, client, m.registry[client]) else []
  {
    if f.qos >= 3 { return 0x80; }
    m.CreateSubscription(f.topic, f.qos, client);
    return f.qos;
  }

  // ---------------------------------------------------------------- CONNECT

  function RequestOf(b: Body): ConnectRequest
    requires b.Connect?
  {
    ConnectRequest(b.level, b.cf.cleanSession, b.keepAlive, b.clientId)
  }

  /** What CONNECT does first to a session registered under its client id. */
  method TakeOverSession(m: ManageSessions, cs: ClientSession, r: ConnectRequest)
    requires m.Sound() && r.clientId in m.registry && m.registry[r.clientId] == cs
    modifies m`registry, m`transports, cs`connected
    ensures m.Sound() && m.View() == TakeOver(old(m.View()), r)
  {
    if cs.connected {
      if cs.transport.Some? && cs.transport.value in m.transports {
        m.ForceDisconnect(cs.transport.value);
      }
      m.SetDisconnected(cs);
    }
    if r.cleanSession {
      m.RemoveFromRegistry(r.clientId);
    }
  }

  /** `resendMessages` over one of a session's maps, whose entries come up in arbitrary order. */
  method ResendMap(m: ManageSessions, t: nat, stored: map<uint16, Packet>) returns (ghost ids: seq<uint16>)
    requires m.Sound()
    modifies m`sent
    ensures m.Sound() && ListsEach(ids, stored.Keys) && m.sent == old(m.sent) + ResendEach(t, stored, ids)
  {
    ids := [];
    var rest := stored.Keys;
    while rest != {}
      invariant m.Sound() && Resending(old(m.sent), m.sent, t, stored, ids, rest)
      decreases |rest|
    {
      var id :| id in rest;
      ResendingOneMore(old(m.sent), m.sent, t, stored, ids, rest, id);
      ResendMessage(m, t, stored, id);
      ids, rest := ids + [id], rest - {id};
    }
  }

  /** The entries outside `rest` have been sent again, in that order. */
  ghost predicate Resending(before: seq<Output>, sent: seq<Output>, t: nat, stored: map<uint16, Packet>,
                            ids: seq<uint16>, rest: set<uint16>)
  {
    rest <= stored.Keys && ListsEach(ids, stored.Keys - rest) && sent == before + ResendEach(t, stored, ids)
  }

  lemma ResendingOneMore(before: seq<Output>, sent: seq<Output>, t: nat, stored: map<uint16, Packet>,
                         ids: seq<uint16>, rest: set<uint16>, id: uint16)
    requires Resending(before, sent, t, stored, ids, rest) && id in rest
    ensures Resending(before, sent + ResendOne(t, stored, id), t, stored, ids + [id], rest - {id})
  {
    assert (ids + [id])[..|ids|] == ids;
    forall k ensures k in ids + [id] <==> k in stored.Keys - (rest - {id}) {
    }
  }

  method ResendMessage(m: ManageSessions, t: nat, stored: map<uint16, Packet>, id: uint16)
    requires m.Sound() && id in stored
    modifies m`sent
    ensures m.Sound() && m.sent == old(m.sent) + ResendOne(t, stored, id)
  {
    var packet := stored[id];
    if packet.header.ptype == PUBLISH {
      m.Write(SentPublish(t, WithDup(packet), id));
    } else if packet.header.ptype == PUBREL {
      m.Write(SentAck(t, PUBREL, id));
    }
  }

  /** Everything the session has stored is sent again, if its transport can still be written to. */
  method ResendAll(m: ManageSessions, cs: ClientSession) returns (ghost order: ResendOrder)
    requires m.Sound() && cs in m.created
    modifies m`sent
    ensures m.Sound() && m.View() == ResendStored(old(m.View()), cs, order)
    ensures Writable(old(m.View()), cs) ==> OrderOf(order, cs.Data())
  {
    ghost var b := m.View();
    order := NO_RESEND;
    assert b.sessions[cs] == cs.Data();
    if m.CanWrite(cs) {
      ghost var publishes := ResendMap(m, cs.transport.value, cs.inflight);
      ghost var acks := ResendMap(m, cs.transport.value, cs.inflightAck);
      order := ResendOrder(publishes, acks);
      assert m.View().sessions == b.sessions;
    }
  }

  method ResumeSession(m: ManageSessions, cs: ClientSession, r: ConnectRequest) returns (ghost order: ResendOrder)
    requires m.Sound() && cs in m.created
    modifies m`sent, cs`keepAlive, cs`cleanSession, cs`connected, cs`history
    ensures m.Sound()
    ensures m.View() == With(ResendStored(old(m.View()), cs, order), cs, ResumedData(old(cs.Data()), r))
    ensures Writable(old(m.View()), cs) ==> OrderOf(order, old(cs.Data()))
  {
    order := ResendAll(m, cs);
    RenewTerms(m, cs, r);
  }

  method RenewTerms(m: ManageSessions, cs: ClientSession, r: ConnectRequest)
    requires m.Sound() && cs in m.created
    modifies cs`keepAlive, cs`cleanSession, cs`connected, cs`history
    ensures m.Sound() && m.View() == With(old(m.View()), cs, ResumedData(old(cs.Data()), r))
  {
    ghost var b := m.View();
    TakeTerms(cs, r);
    assert m.View().sessions == b.sessions[cs := cs.Data()];
  }

  method TakeTerms(cs: ClientSession, r: ConnectRequest)
    modifies cs`keepAlive, cs`cleanSession, cs`connected, cs`history
    ensures cs.Data() == ResumedData(old(cs.Data()), r)
  {
    cs.keepAlive, cs.cleanSession := r.keepAlive, r.cleanSession;
    if r.level != 4 { cs.connected := false; }
    Witness(cs, Resumed);
  }

  /** A new session object; it is registered only if the protocol level is 4. */
  method FirstSession(m: ManageSessions, t: nat, r: ConnectRequest, now: int) returns (cs: ClientSession)
    requires m.Sound()
    modifies m`registry, m`created, m.expiryHeap
    ensures m.Sound() && fresh(cs)
    ensures m.created == old(m.created) + if r.level == 4 then {cs} else {}
    ensures m.View() == if r.level == 4
                        then ScheduleExpiry(Registered(old(m.View()), cs, FirstData(r, t, now)), cs)
                        else old(m.View())
  {
    cs := NewClientSession(t, r, now);
    if r.level == 4 {
      m.AddToRegistry(cs);
      m.ScheduleExpiry(cs);
    }
  }

  method NewClientSession(t: nat, r: ConnectRequest, now: int) returns (cs: ClientSession)
    ensures fresh(cs) && (r.level == 4 ==> cs.Data() == FirstData(r, t, now))
  {
    cs := new ClientSession(r.clientId);
    cs.keepAlive, cs.cleanSession := r.keepAlive, r.cleanSession;
    if r.level != 4 {
      cs.connected := false;
    } else {
      cs.connected, cs.transport, cs.lastActivity := true, Some(t), now;
    }
  }

  method ClearTheWay(m: ManageSessions, r: ConnectRequest, now: int) returns (present: Option<ClientSession>)
    requires m.Sound()
    modifies m`registry, m`transports, m`clock, m.created`connected
    ensures m.Sound() && m.View() == TakeOver(old(m.View()).(clock := now), r)
    ensures present == if r.clientId in old(m.registry) then Some(old(m.registry)[r.clientId]) else None
  {
    m.SetClock(now);
    present := TakeOverPresent(m, r);
  }

  method TakeOverPresent(m: ManageSessions, r: ConnectRequest) returns (present: Option<ClientSession>)
    requires m.Sound()
    modifies m`registry, m`transports, m.created`connected
    ensures m.Sound() && m.View() == TakeOver(old(m.View()), r)
    ensures present == if r.clientId in old(m.registry) then Some(old(m.registry)[r.clientId]) else None
  {
    ghost var b := m.View();
    present := m.SessionPresent(r.clientId);
    if present.Some? {
      TakeOverSession(m, present.value, r);
    } else {
      assert TakeOver(b, r) == b;
    }
  }

  /** A session is resumed, and what it has stored sent again, or a new one is made. */
  method AdmitSession(m: ManageSessions, previous: Option<ClientSession>, t: nat, r: ConnectRequest, now: int)
    returns (ghost newcomer: ClientSession, ghost order: ResendOrder)
    requires m.Sound()
    requires previous.Some? ==> r.clientId in m.registry && m.registry[r.clientId] == previous.value
    modifies m`registry, m`created, m`sent, m.created, m.expiryHeap
    ensures m.Sound() && m.View() == Admit(old(m.View()), previous.Some?, t, r, newcomer, order, now)
    ensures m.created == old(m.created) + if previous.None? && r.level == 4 then {newcomer} else {}
    ensures previous.None? ==> fresh(newcomer)
    ensures previous.Some? && Writable(old(m.View()), previous.value) ==> OrderOf(order, old(m.View()).sessions[previous.value])
  {
    order := NO_RESEND;
    if previous.Some? {
      assert m.View().sessions[previous.value] == previous.value.Data();
      order := ResumeSession(m, previous.value, r);
      newcomer := previous.value;
    } else {
      newcomer := FirstSession(m, t, r, now);
    }
  }

  /** The CONNACK is what the dispatcher goes on to write; with it the handler is the CONNECT step.
      `made.newcomer` is the session object it has made, if it has made one. */
  method ConnectHandler(m: ManageSessions, t: nat, pkt: Packet, now: int)
    returns (code: int, connack: Option<Output>, ghost made: Option<Admission>)
    requires m.Sound() && RegistryOk(m.View())
    modifies m`registry, m`created, m`transports, m`clock, m`sent, m.created, m.expiryHeap
    ensures m.Sound() && (connack.Some? <==> pkt.body.Connect?) && (made.Some? <==> pkt.body.Connect?)
    ensures pkt.body.Connect? ==>
              Admitted(old(m.View()), t, RequestOf(pkt.body), made.value, now, Emit(m.View(), connack.value))
    ensures pkt.body.Connect? && Registers(old(m.View()), RequestOf(pkt.body)) ==>
              fresh(made.value.newcomer) && m.created == old(m.created) + {made.value.newcomer}
    ensures !(pkt.body.Connect? && Registers(old(m.View()), RequestOf(pkt.body))) ==> m.created == old(m.created)
    ensures !pkt.body.Connect? ==> m.View() == old(m.View()) && code == -MQTT_ERR
    ensures pkt.body.Connect? ==>
              code == if pkt.body.level == 4 then MQTT_CONNECTION_ACCEPTED else MQTT_UNACCEPTABLE_PROTOCOL_VERSION
  {
    if !pkt.body.Connect? { return -MQTT_ERR, None, None; }
    var reply;
    ghost var admission;
    code, reply, admission := ServeConnect(m, t, pkt, now);
    connack, made := Some(reply), Some(admission);
  }

  method ServeConnect(m: ManageSessions, t: nat, pkt: Packet, now: int)
    returns (code: int, connack: Output, ghost made: Admission)
    requires m.Sound() && pkt.body.Connect? && RegistryOk(m.View())
    modifies m`registry, m`created, m`transports, m`clock, m`sent, m.created, m.expiryHeap
    ensures m.Sound()
    ensures Admitted(old(m.View()), t, RequestOf(pkt.body), made, now, Emit(m.View(), connack))
    ensures Registers(old(m.View()), RequestOf(pkt.body)) ==> fresh(made.newcomer)
    ensures m.created == old(m.created) + if Registers(old(m.View()), RequestOf(pkt.body)) then {made.newcomer} else {}
    ensures code == if pkt.body.level == 4 then MQTT_CONNECTION_ACCEPTED else MQTT_UNACCEPTABLE_PROTOCOL_VERSION
  {
    ghost var b := m.View();
    var r := RequestOf(pkt.body);
    code := if r.level == 4 then MQTT_CONNECTION_ACCEPTED else MQTT_UNACCEPTABLE_PROTOCOL_VERSION;
    var present := ClearTheWay(m, r, now);
    var resumed := if r.cleanSession then None else present;
    ghost var newcomer, order;
    newcomer, order := AdmitSession(m, resumed, t, r, now);
    made := Admission(newcomer, order);
    connack := ConnackTo(t, resumed.Some?, r.level);
    AdmissionIsConnect(b, t, r, made, now, m.View());
  }

  /** The choices of a CONNECT: the session object it makes, and in which order it sends again. */
  datatype Admission = Admission(newcomer: ClientSession, order: ResendOrder)

  lemma AdmissionIsConnect(b: Broker<ClientSession>, t: nat, r: ConnectRequest, made: Admission, now: int,
                           c: Broker<ClientSession>)
    requires RegistryOk(b) && c == Admit(TakeOver(b.(clock := now), r), Resumes(b, r), t, r, made.newcomer, made.order, now)
    requires var b1 := TakeOver(b.(clock := now), r);
             Resumes(b, r) && Writable(b1, b.registry[r.clientId]) ==> OrderOf(made.order, b1.sessions[b.registry[r.clientId]])
    ensures Admitted(b, t, r, made, now, Emit(c, ConnackTo(t, Resumes(b, r), r.level)))
  {
  }

  /** From `b` to `c` by such a CONNECT. */
  ghost predicate Admitted(b: Broker<ClientSession>, t: nat, r: ConnectRequest, made: Admission, now: int,
                           c: Broker<ClientSession>)
    requires RegistryOk(b)
  {
    && c == HandleConnect(b, t, r, made.newcomer, made.order, now)
    && (Resumes(b, r) && Writable(TakeOver(b.(clock := now), r), b.registry[r.clientId]) ==>
          OrderOf(made.order, b.sessions[b.registry[r.clientId]]))
  }
}
