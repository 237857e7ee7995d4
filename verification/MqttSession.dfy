/** The dispatch of decoded packets: every packet that arrives is one step of the broker. */
module MqttSessions {
  import opened Packets
  import opened Wrappers
  import opened ByteMemory
  import opened Sessions
  import opened BrokerModel
  import opened BrokerRuns
  import opened JointRuns
  import opened TopicFilter
  import opened TopicHistory
  import opened TopicTrees
  import opened TreeSteps
  import opened SessionManagers
  import opened PacketHandlers
  import Receive
  import Unpack

  /** What the decoder guarantees: the body fits the type, and the length is that of the frame. */
  predicate Decoded(p: Packet)
  {
    && p.pktLen > 0
    && if p.header.ptype == CONNECT then p.body.Connect?
       else if p.header.ptype == PUBLISH then p.body.Publish?
       else if p.header.ptype == SUBSCRIBE then p.body.Subscribe?
       else if p.header.ptype == UNSUBSCRIBE then p.body.Unsubscribe?
       else PUBACK <= p.header.ptype <= PUBCOMP && p.body.Ack?
  }

  lemma FramesAreDecoded(mem: Memory, available: nat, p: Packet)
    requires Unpack.FrameAt(mem, available) == Unpack.Ok(p)
    ensures Decoded(p)
  {
  }

  /** The manager between two packets. */
  ghost predicate Steady(m: ManageSessions)
    reads m, m.created, m.expiryHeap, m.retransmitHeap, m.topicTree, m.topicTree.repr
  {
    m.Sound() && m.topicTree.Valid() && Inv(m.View()) && m.Recorded()
  }

  /** The manager has got to the end of the run `r`. */
  ghost method GoOn(m: ManageSessions, r: Joint<ClientSession>)
    requires m.Sound() && m.topicTree.Valid() && Ends(r, m.View(), m.topicTree.ops)
    modifies m`run
    ensures Steady(m) && m.run == r && m.View() == old(m.View())
  {
    m.Record(r);
    RunHasInv(r, m.View(), m.topicTree.ops);
  }

  /** A CONNECT body asks for this. */
  ghost predicate Requests(body: Body, r: ConnectRequest)
    requires body.Connect?
  {
    && r.level == body.level && r.cleanSession == body.cf.cleanSession
    && r.keepAlive == body.keepAlive && r.clientId == body.clientId
  }

  /** The step that a packet from transport `t` is, if its client is `client`. */
  ghost predicate StepFor<S>(p: Packet, t: nat, client: string, now: int, step: Step<S>)
  {
    match step
    case DoConnect(t', r, _, _, n) =>
      p.header.ptype == CONNECT && p.body.Connect? && t' == t && Requests(p.body, r) && n == now
    case DoPublish(t', c, p', _, n) => p.header.ptype == PUBLISH && t' == t && c == client && p' == p && n == now
    case DoPuback(c, id, n) => p.header.ptype == PUBACK && p.body == Ack(id) && c == client && n == now
    case DoPubrec(t', c, id, n) => p.header.ptype == PUBREC && p.body == Ack(id) && t' == t && c == client && n == now
    case DoPubrel(t', c, id, _, n) => p.header.ptype == PUBREL && p.body == Ack(id) && t' == t && c == client && n == now
    case DoPubcomp(c, id, n) => p.header.ptype == PUBCOMP && p.body == Ack(id) && c == client && n == now
    case DoSubscribe(t', c, id, fs, n) =>
      p.header.ptype == SUBSCRIBE && p.body == Body.Subscribe(id, fs) && t' == t && c == client && n == now
    case _ => false
  }

  ghost predicate Did<S>(b: Broker<S>, step: Step<S>, c: Broker<S>)
  {
    RegistryOk(b) && Enabled(b, step) && c == Next(b, step)
  }

  lemma DidKeepsInv<S>(b: Broker<S>, step: Step<S>, c: Broker<S>)
    requires Inv(b) && Did(b, step, c)
    ensures Inv(c)
  {
    StepKeepsInv(b, step);
  }

  lemma DidConnect(b: Broker<ClientSession>, t: nat, r: ConnectRequest, made: Admission, now: int,
                   c: Broker<ClientSession>)
    requires RegistryOk(b) && b.clock <= now && t < b.nextTransport && (Registers(b, r) ==> made.newcomer !in b.sessions)
    requires Admitted(Hold(b, t), t, r, made, now, c)
    ensures Did(b, DoConnect(t, r, made.newcomer, made.order, now), Release(c))
  {
  }

  /** With the transport held, the handler of a PUBLISH or a PUBREL has come from `b` to `c`. */
  ghost predicate Routes<S>(b: Broker<S>, t: nat, step: Step<S>, c: Broker<S>)
  {
    && RegistryOk(b) && Enabled(b, step)
    && match step
       case DoPublish(t', client, p, ms, now) => t' == t && c == HandlePublish(Hold(b, t), t, client, p, ms, now)
       case DoPubrel(t', client, id, ms, now) => t' == t && c == HandlePubrel(Hold(b, t), t, client, id, ms, now)
       case _ => false
  }

  lemma DidRouted<S>(b: Broker<S>, step: Step<S>, t: nat, c: Broker<S>)
    requires Routes(b, t, step, c)
    ensures Did(b, step, Release(c))
  {
  }

  class MqttSession {
    const transport: nat
    const receiver: Receive.Receiver
    var clientId: string

    constructor (transport: nat)
      ensures this.transport == transport && clientId == "" && fresh(receiver)
    {
      this.transport, clientId := transport, "";
      receiver := new Receive.Receiver();
    }

    method DispatchAck(m: ManageSessions, pkt: Packet, now: int)
      returns (r: Outcome, ghost step: Step<ClientSession>)
      requires m.Sound() && RegistryOk(m.View()) && m.clock <= now
      requires pkt.header.ptype in {PUBACK, PUBREC, PUBCOMP} && pkt.body.Ack?
      modifies m`clock, m`sent, m.created
      ensures m.Sound()
      ensures StepFor(pkt, transport, clientId, now, step) && Did(old(m.View()), step, m.View())
      ensures r == if clientId in old(m.registry) then Returned(MQTT_OK) else NullSession
    {
      if pkt.header.ptype == PUBACK {
        step := DoPuback(clientId, pkt.body.packetId, now);
        r := PubackHandler(m, clientId, pkt, now);
      } else if pkt.header.ptype == PUBREC {
        step := DoPubrec(transport, clientId, pkt.body.packetId, now);
        r := PubrecHandler(m, transport, clientId, pkt, now);
      } else {
        step := DoPubcomp(clientId, pkt.body.packetId, now);
        r := PubcompHandler(m, clientId, pkt, now);
      }
    }

    /** An acknowledgement does nothing to the tree. */
    method DispatchQuietly(m: ManageSessions, pkt: Packet, now: int)
      returns (r: Outcome, ghost step: Step<ClientSession>)
      requires m.Sound() && m.topicTree.Valid() && RegistryOk(m.View()) && m.clock <= now
      requires pkt.header.ptype in {PUBACK, PUBREC, PUBCOMP} && pkt.body.Ack?
      modifies m`clock, m`sent, m.created
      ensures m.Sound() && m.topicTree.Valid() && m.topicTree.Grows()
      ensures StepFor(pkt, transport, clientId, now, step) && Did(old(m.View()), step, m.View())
      ensures TreeDid(old(m.View()), step, old(m.topicTree.ops), m.topicTree.ops, [])
    {
      r, step := DispatchAck(m, pkt, now);
    }

    method DispatchRouted(m: ManageSessions, pkt: Packet, now: int)
      returns (r: Outcome, ghost step: Step<ClientSession>, ghost entries: seq<Entry<Subscription>>)
      requires m.Sound() && m.topicTree.Valid() && RegistryOk(m.View()) && m.clock <= now && Decoded(pkt)
      requires pkt.header.ptype in {PUBLISH, PUBREL}
      requires clientId in m.registry ==> HoldsPublishes(m.registry[clientId].Data())
      modifies m`clock, m`sent, m`held, m.created, m.retransmitHeap, m.topicTree, m.topicTree.repr
      ensures m.Sound() && m.topicTree.Valid() && m.topicTree.Grows()
      ensures StepFor(pkt, transport, clientId, now, step) && Did(old(m.View()), step, m.View())
      ensures TreeDid(old(m.View()), step, old(m.topicTree.ops), m.topicTree.ops, entries)
    {
      ghost var b := m.View();
      m.Hold(transport);
      r, step, entries := Route(m, pkt, now, b);
      ghost var c := m.View();
      m.Release();
      DidRouted(b, step, transport, c);
    }

    /** With the transport held, a PUBLISH or a PUBREL goes to its handler. */
    method Route(m: ManageSessions, pkt: Packet, now: int, ghost b: Broker<ClientSession>)
      returns (r: Outcome, ghost step: Step<ClientSession>, ghost entries: seq<Entry<Subscription>>)
      requires m.Sound() && m.topicTree.Valid() && Decoded(pkt) && pkt.header.ptype in {PUBLISH, PUBREL}
      requires RegistryOk(b) && m.View() == BrokerModel.Hold(b, transport) && m.clock <= now
      requires clientId in m.registry ==> HoldsPublishes(m.registry[clientId].Data())
      modifies m`clock, m`sent, m.created, m.retransmitHeap, m.topicTree, m.topicTree.repr
      ensures m.Sound() && m.topicTree.Valid() && m.topicTree.Grows()
      ensures StepFor(pkt, transport, clientId, now, step) && Routes(b, transport, step, m.View())
      ensures TreeDid(b, step, old(m.topicTree.ops), m.topicTree.ops, entries)
    {
      if pkt.header.ptype == PUBLISH {
        r, step, entries := RoutePublish(m, pkt, now, b);
      } else {
        r, step, entries := RoutePubrel(m, pkt, now, b);
      }
    }

    method RoutePublish(m: ManageSessions, pkt: Packet, now: int, ghost b: Broker<ClientSession>)
      returns (r: Outcome, ghost step: Step<ClientSession>, ghost entries: seq<Entry<Subscription>>)
      requires m.Sound() && m.topicTree.Valid() && pkt.body.Publish? && pkt.header.ptype == PUBLISH && pkt.pktLen > 0
      requires RegistryOk(b) && m.View() == BrokerModel.Hold(b, transport) && m.clock <= now
      modifies m`clock, m`sent, m.created, m.retransmitHeap, m.topicTree, m.topicTree.repr
      ensures m.Sound() && m.topicTree.Valid() && m.topicTree.Grows()
      ensures StepFor(pkt, transport, clientId, now, step) && Routes(b, transport, step, m.View())
      ensures TreeDid(b, step, old(m.topicTree.ops), m.topicTree.ops, entries)
    {
      ghost var ms;
      r, ms, entries := PublishHandler(m, transport, clientId, pkt, now);
      step := DoPublish(transport, clientId, pkt, ms, now);
    }

    method RoutePubrel(m: ManageSessions, pkt: Packet, now: int, ghost b: Broker<ClientSession>)
      returns (r: Outcome, ghost step: Step<ClientSession>, ghost entries: seq<Entry<Subscription>>)
      requires m.Sound() && m.topicTree.Valid() && pkt.body.Ack? && pkt.header.ptype == PUBREL
      requires RegistryOk(b) && m.View() == BrokerModel.Hold(b, transport) && m.clock <= now
      requires clientId in m.registry ==> HoldsPublishes(m.registry[clientId].Data())
      modifies m`clock, m`sent, m.created, m.retransmitHeap, m.topicTree, m.topicTree.repr
      ensures m.Sound() && m.topicTree.Valid() && m.topicTree.Grows()
      ensures StepFor(pkt, transport, clientId, now, step) && Routes(b, transport, step, m.View())
      ensures TreeDid(b, step, old(m.topicTree.ops), m.topicTree.ops, entries)
    {
      ghost var ms;
      r, ms, entries := PubrelHandler(m, transport, clientId, pkt, now);
      step := DoPubrel(transport, clientId, pkt.body.packetId, ms, now);
    }

    /** The transport is held for the handler and for the reply. */
    method ConnectAndReply(m: ManageSessions, pkt: Packet, now: int)
      returns (code: int, ghost made: Admission, ghost c: Broker<ClientSession>)
      requires m.Sound() && pkt.body.Connect? && RegistryOk(m.View())
      modifies m`registry, m`created, m`transports, m`clock, m`sent, m`held, m.created, m.expiryHeap
      ensures m.Sound() && m.View() == BrokerModel.Release(c)
      ensures Admitted(BrokerModel.Hold(old(m.View()), transport), transport, RequestOf(pkt.body), made, now, c)
      ensures Registers(old(m.View()), RequestOf(pkt.body)) ==> made.newcomer !in old(m.created)
      ensures code == if pkt.body.level == 4 then MQTT_CONNECTION_ACCEPTED else MQTT_UNACCEPTABLE_PROTOCOL_VERSION
    {
      var connack;
      ghost var admission;
      m.Hold(transport);
      code, connack, admission := ConnectHandler(m, transport, pkt, now);
      made := admission.value;
      m.Write(connack.value);
      c := m.View();
      m.Release();
    }

    method ConnectStep(m: ManageSessions, pkt: Packet, now: int)
      returns (code: int, ghost step: Step<ClientSession>, ghost c: Broker<ClientSession>)
      requires m.Sound() && m.clock <= now && Decoded(pkt) && pkt.header.ptype == CONNECT
      requires transport < m.nextTransport && RegistryOk(m.View())
      modifies m`registry, m`created, m`transports, m`clock, m`sent, m`held, m.created, m.expiryHeap
      ensures m.Sound() && m.View() == c && StepFor(pkt, transport, clientId, now, step) && Did(old(m.View()), step, c)
      ensures code == if pkt.body.level == 4 then MQTT_CONNECTION_ACCEPTED else MQTT_UNACCEPTABLE_PROTOCOL_VERSION
    {
      ghost var b := m.View();
      ghost var made, held;
      code, made, held := ConnectAndReply(m, pkt, now);
      c := m.View();
      step := DoConnect(transport, RequestOf(pkt.body), made.newcomer, made.order, now);
      DidConnect(b, transport, RequestOf(pkt.body), made, now, held);
    }

    method Conclude(m: ManageSessions, accepted: bool, id: string)
      requires m.Sound()
      modifies m`transports, this`clientId
      ensures m.Sound() && m.View() == if accepted then old(m.View()) else Close(old(m.View()), transport)
      ensures clientId == if accepted then id else old(clientId)
    {
      if accepted {
        clientId := id;
      } else {
        m.ForceDisconnect(transport);
      }
    }

    /** A refused CONNECT is a step, to `c`, and then the closing of the transport. */
    method DispatchConnect(m: ManageSessions, pkt: Packet, now: int)
      returns (r: Outcome, ghost step: Step<ClientSession>, ghost c: Broker<ClientSession>)
      requires m.Sound() && m.clock <= now && Decoded(pkt) && pkt.header.ptype == CONNECT
      requires transport < m.nextTransport && RegistryOk(m.View())
      modifies m`registry, m`created, m`transports, m`clock, m`sent, m`held, m.created, m.expiryHeap, this`clientId
      ensures unchanged(m.topicTree) && unchanged(m.topicTree.repr)
      ensures m.Sound() && StepFor(pkt, transport, old(clientId), now, step) && Did(old(m.View()), step, c)
      ensures m.View() == if pkt.body.level == 4 then c else Close(c, transport)
      ensures clientId == if pkt.body.level == 4 then pkt.body.clientId else old(clientId)
      ensures r == Returned(if pkt.body.level == 4 then MQTT_CONNECTION_ACCEPTED else MQTT_UNACCEPTABLE_PROTOCOL_VERSION)
    {
      var code;
      code, step, c := ConnectStep(m, pkt, now);
      Conclude(m, code == MQTT_CONNECTION_ACCEPTED, pkt.body.clientId);
      r := Returned(code);
    }

    method DispatchSubscribe(m: ManageSessions, pkt: Packet, now: int)
      returns (r: Outcome, ghost step: Step<ClientSession>)
      requires m.Sound() && m.topicTree.Valid() && RegistryOk(m.View()) && m.clock <= now
      requires pkt.header.ptype == SUBSCRIBE && pkt.body.Subscribe?
      modifies m`clock, m`sent, m.created, m.topicTree, m.topicTree.repr
      ensures m.Sound() && m.topicTree.Valid() && m.topicTree.Grows()
      ensures StepFor(pkt, transport, clientId, now, step) && Did(old(m.View()), step, m.View())
      ensures TreeDid(old(m.View()), step, old(m.topicTree.ops), m.topicTree.ops, [])
    {
      step := DoSubscribe(transport, clientId, pkt.body.packetId, pkt.body.filters, now);
      r := SubscribeHandler(m, transport, clientId, pkt, now);
    }

    /** The handlers that serve a client already connected. */
    method DispatchServed(m: ManageSessions, pkt: Packet, now: int)
      returns (r: Outcome, ghost step: Step<ClientSession>, ghost entries: seq<Entry<Subscription>>)
      requires m.Sound() && m.topicTree.Valid() && RegistryOk(m.View()) && m.clock <= now && Decoded(pkt)
      requires pkt.header.ptype !in {CONNECT, UNSUBSCRIBE}
      requires clientId in m.registry ==> HoldsPublishes(m.registry[clientId].Data())
      modifies m`clock, m`sent, m`held, m.created, m.retransmitHeap, m.topicTree, m.topicTree.repr
      ensures m.Sound() && m.topicTree.Valid() && m.topicTree.Grows()
      ensures StepFor(pkt, transport, clientId, now, step) && Did(old(m.View()), step, m.View())
      ensures TreeDid(old(m.View()), step, old(m.topicTree.ops), m.topicTree.ops, entries)
    {
      entries := [];
      if pkt.header.ptype == SUBSCRIBE {
        r, step := DispatchSubscribe(m, pkt, now);
      } else if pkt.header.ptype in {PUBACK, PUBREC, PUBCOMP} {
        r, step := DispatchQuietly(m, pkt, now);
      } else {
        r, step, entries := DispatchRouted(m, pkt, now);
      }
    }

    /** The handler table. UNSUBSCRIBE comes to nothing: its handler looks for another body. */
    method Dispatch(m: ManageSessions, pkt: Packet, now: int)
      returns (r: Outcome, ghost step: Option<Step<ClientSession>>, ghost c: Broker<ClientSession>,
               ghost entries: seq<Entry<Subscription>>)
      requires m.Sound() && m.topicTree.Valid() && m.clock <= now && Decoded(pkt) && transport < m.nextTransport
      requires Prepared(m.View(), clientId)
      modifies m`registry, m`created, m`transports, m`clock, m`sent, m`held
      modifies m.created, m.expiryHeap, m.retransmitHeap, m.topicTree, m.topicTree.repr, this`clientId
      ensures m.Sound() && m.topicTree.Valid() && m.topicTree.Grows()
      ensures Dispatched(pkt, transport, old(clientId), now, old(m.View()), old(m.topicTree.ops),
                         step, c, entries, m.View(), m.topicTree.ops)
      ensures pkt.header.ptype == UNSUBSCRIBE ==> r == Returned(-MQTT_ERR)
      ensures clientId == if pkt.body.Connect? && pkt.body.level == 4 then pkt.body.clientId else old(clientId)
    {
      ghost var s: Step<ClientSession>;
      step, c, entries := None, m.View(), [];
      if pkt.header.ptype == UNSUBSCRIBE {
        r := Returned(-MQTT_ERR);
      } else if pkt.header.ptype == CONNECT {
        r, s, c := DispatchConnect(m, pkt, now);
        step := Some(s);
      } else {
        r, s, entries := DispatchServed(m, pkt, now);
        step, c := Some(s), m.View();
      }
    }

    /** One decoded packet, from a steady state to a steady state. */
    method HandlePacket(m: ManageSessions, pkt: Packet, now: int)
      returns (r: Outcome, ghost step: Option<Step<ClientSession>>, ghost c: Broker<ClientSession>,
               ghost entries: seq<Entry<Subscription>>)
      requires Steady(m) && m.clock <= now && Decoded(pkt) && transport < m.nextTransport
      modifies m, m.created, m.expiryHeap, m.retransmitHeap, m.topicTree, m.topicTree.repr, this`clientId
      ensures Steady(m) && m.topicTree.Grows() && GoesOn(old(m.run), m.run)
      ensures Dispatched(pkt, transport, old(clientId), now, old(m.View()), old(m.topicTree.ops),
                         step, c, entries, m.View(), m.topicTree.ops)
      ensures m.run.steps == old(m.run.steps) + StepsOf(pkt, transport, step)
      ensures clientId == if pkt.body.Connect? && pkt.body.level == 4 then pkt.body.clientId else old(clientId)
    {
      ghost var b := m.View();
      InvPrepares(b, clientId);
      r, step, c, entries := Dispatch(m, pkt, now);
      ghost var r' := DispatchedExtends(m.run, pkt, transport, old(clientId), now, b, old(m.topicTree.ops),
                                        step, c, entries, m.View(), m.topicTree.ops);
      GoOn(m, r');
    }

    /** The branch of `parseData` for a frame that cannot be decoded. */
    method HandleBadFrame(m: ManageSessions) returns (r: Outcome)
      requires m.Sound()
      modifies m`registry, m`transports
      ensures m.Sound() && m.View() == BadFrame(old(m.View()), transport, clientId)
      ensures unchanged(m.topicTree) && unchanged(m.topicTree.repr)
      ensures r == if clientId in old(m.registry) then Returned(-MQTT_ERR) else NullSession
    {
      var cs := m.SessionPresent(clientId);
      if cs == None { return NullSession; }
      assert m.View().sessions[cs.value] == cs.value.Data();
      if cs.value.cleanSession {
        m.RemoveFromRegistry(clientId);
      }
      m.ForceDisconnect(transport);
      return Returned(-MQTT_ERR);
    }

    method RejectFrame(m: ManageSessions)
      requires Steady(m)
      modifies m`registry, m`transports, m`run
      ensures Steady(m) && m.topicTree.Grows() && m.View() == BadFrame(old(m.View()), transport, clientId)
      ensures unchanged(m.topicTree) && GoesOn(old(m.run), m.run)
      ensures m.run.steps == old(m.run.steps) + [DoBadFrame(transport, clientId)]
    {
      ghost var b := m.View();
      var r := HandleBadFrame(m);
      ghost var r' := StepOn(m.run, b, m.topicTree.ops, DoBadFrame(transport, clientId), m.topicTree.ops, []);
      GoOn(m, r');
    }

    /** What follows a frame that has not been decoded. */
    method ReactToNone(m: ManageSessions, o: Unpack.Result, ghost now: int)
      requires Steady(m) && !o.Ok?
      modifies m`registry, m`transports, m`run
      ensures Steady(m) && m.topicTree.Grows() && GoesOn(old(m.run), m.run)
      ensures m.run.steps == old(m.run.steps) + StepsTaken(o, transport, clientId, None)
      ensures Parsed(o, transport, clientId, now, old(m.View()), old(m.topicTree.ops), None, old(m.View()), [],
                     m.View(), m.topicTree.ops)
    {
      if o.Refused? {
        RejectFrame(m);
      } else {
        assert m.run.steps == old(m.run.steps) + [];
      }
    }

    /** What follows decoding in `parseData`. */
    method React(m: ManageSessions, o: Unpack.Result, now: int)
      returns (ghost step: Option<Step<ClientSession>>, ghost c: Broker<ClientSession>,
               ghost entries: seq<Entry<Subscription>>)
      requires Steady(m) && m.clock <= now && transport < m.nextTransport && (o.Ok? ==> Decoded(o.packet))
      modifies m, m.created, m.expiryHeap, m.retransmitHeap, m.topicTree, m.topicTree.repr, this`clientId
      ensures Steady(m) && m.topicTree.Grows() && GoesOn(old(m.run), m.run)
      ensures m.run.steps == old(m.run.steps) + StepsTaken(o, transport, old(clientId), step)
      ensures Parsed(o, transport, old(clientId), now, old(m.View()), old(m.topicTree.ops),
                         step, c, entries, m.View(), m.topicTree.ops)
    {
      step, c, entries := None, m.View(), [];
      if o.Ok? {
        var r;
        r, step, c, entries := HandlePacket(m, o.packet, now);
      } else {
        ReactToNone(m, o, now);
      }
    }

    /** `parseData`: one frame is decoded and erased, then its packet is handled. */
    method ParseData(m: ManageSessions, junk: Memory, now: int)
      returns (o: Unpack.Result, ghost step: Option<Step<ClientSession>>, ghost c: Broker<ClientSession>,
               ghost entries: seq<Entry<Subscription>>)
      requires Steady(m) && m.clock <= now && transport < m.nextTransport
      modifies receiver, m, m.created, m.expiryHeap, m.retransmitHeap, m.topicTree, m.topicTree.repr, this`clientId
      ensures Steady(m) && m.topicTree.Grows() && GoesOn(old(m.run), m.run)
      ensures o == Unpack.FrameAt(Receive.Buffer(old(receiver.recvBuff), junk), |old(receiver.recvBuff)|)
      ensures receiver.recvBuff == LeftAfter(o, old(receiver.recvBuff))
      ensures m.run.steps == old(m.run.steps) + StepsTaken(o, transport, old(clientId), step)
      ensures Parsed(o, transport, old(clientId), now, old(m.View()), old(m.topicTree.ops),
                         step, c, entries, m.View(), m.topicTree.ops)
    {
      o := TakeFrame(m, junk);
      step, c, entries := React(m, o, now);
    }

    /** Decoding touches nothing but the receive buffer. */
    method TakeFrame(ghost m: ManageSessions, junk: Memory) returns (o: Unpack.Result)
      requires m.Sound() && m.topicTree.Valid()
      modifies receiver
      ensures m.Sound() && m.topicTree.Valid() && m.View() == old(m.View()) && unchanged(m) && unchanged(m.topicTree)
      ensures o == Unpack.FrameAt(Receive.Buffer(old(receiver.recvBuff), junk), |old(receiver.recvBuff)|)
      ensures receiver.recvBuff == LeftAfter(o, old(receiver.recvBuff))
      ensures o.Ok? ==> Decoded(o.packet)
    {
      o := DecodeFrame(junk);
    }

    method DecodeFrame(junk: Memory) returns (o: Unpack.Result)
      modifies receiver
      ensures o == Unpack.FrameAt(Receive.Buffer(old(receiver.recvBuff), junk), |old(receiver.recvBuff)|)
      ensures receiver.recvBuff == LeftAfter(o, old(receiver.recvBuff))
      ensures o.Ok? ==> Decoded(o.packet)
    {
      ghost var mem, n := Receive.Buffer(receiver.recvBuff, junk), |receiver.recvBuff|;
      o := receiver.ParseData(junk);
      if o.Ok? { FramesAreDecoded(mem, n, o.packet); }
    }
  }

  /** What a parse leaves in the buffer: exactly the frame that was decoded goes. */
  ghost function LeftAfter(o: Unpack.Result, buff: seq<byte>): seq<byte>
  {
    if o.Ok? && o.packet.pktLen <= |buff| then buff[o.packet.pktLen..] else buff
  }

  /** What `parseData` does to the broker, for each outcome of decoding. An exception leaves it alone. */
  ghost predicate Parsed(o: Unpack.Result, t: nat, client: string, now: int,
                         b: Broker<ClientSession>, before: seq<Op<Subscription>>,
                         step: Option<Step<ClientSession>>, c: Broker<ClientSession>, entries: seq<Entry<Subscription>>,
                         d: Broker<ClientSession>, after: seq<Op<Subscription>>)
  {
    match o
    case Ok(pkt) => Dispatched(pkt, t, client, now, b, before, step, c, entries, d, after)
    case Refused => d == BadFrame(b, t, client) && after == before
    case _ => d == b && after == before
  }

  /** From `b` to `d`: nothing for an UNSUBSCRIBE, and otherwise the packet's step, to `c`, with the
      matches that the tree returned; a CONNECT that is refused then loses its transport. `before` and
      `after` are the tree's history. */
  ghost predicate Dispatched(pkt: Packet, t: nat, client: string, now: int,
                             b: Broker<ClientSession>, before: seq<Op<Subscription>>,
                             step: Option<Step<ClientSession>>, c: Broker<ClientSession>, entries: seq<Entry<Subscription>>,
                             d: Broker<ClientSession>, after: seq<Op<Subscription>>)
  {
    match step
    case None => pkt.header.ptype == UNSUBSCRIBE && d == c == b && after == before
    case Some(s) =>
      && StepFor(pkt, t, client, now, s) && Did(b, s, c) && TreeDid(b, s, before, after, entries)
      && d == if pkt.body.Connect? && pkt.body.level != 4 then Close(c, t) else c
  }

  lemma DispatchedKeepsInv(pkt: Packet, t: nat, client: string, now: int,
                           b: Broker<ClientSession>, before: seq<Op<Subscription>>,
                           step: Option<Step<ClientSession>>, c: Broker<ClientSession>, entries: seq<Entry<Subscription>>,
                           d: Broker<ClientSession>, after: seq<Op<Subscription>>)
    requires Inv(b) && Dispatched(pkt, t, client, now, b, before, step, c, entries, d, after)
    ensures Inv(d)
  {
    if step.Some? {
      DidKeepsInv(b, step.value, c);
      StepKeepsInv(c, DoClose(t));
    }
  }

  /** End to end, for a PUBLISH with QoS 0 or 1 to a topic without wildcard levels: it is routed to what
      the tree found, which is each client once whose latest operation that reached the topic was a
      subscribe, with that subscription, and nobody else. */
  lemma PublishFindsLatest(pkt: Packet, t: nat, client: string, now: int,
                           b: Broker<ClientSession>, before: seq<Op<Subscription>>,
                           step: Option<Step<ClientSession>>, c: Broker<ClientSession>, entries: seq<Entry<Subscription>>,
                           d: Broker<ClientSession>, after: seq<Op<Subscription>>)
    requires Dispatched(pkt, t, client, now, b, before, step, c, entries, d, after)
    requires pkt.header.ptype == PUBLISH && pkt.body.Publish? && pkt.header.qos < 2
    requires NoWild(TopicNames.SplitTopic(pkt.body.topic))
    ensures d == Release(HandlePublish(Hold(b, t), t, client, pkt, MatchesOf(entries), now))
    ensures forall i, j | 0 <= i < j < |entries| :: entries[i].client != entries[j].client
    ensures forall e | e in entries ::
              e.at == TopicNames.SplitTopic(pkt.body.topic) && exists j: nat :: LatestIsSubscribe(after, j, e.at, e.client)
    ensures forall x, j: nat | LatestIsSubscribe(after, j, TopicNames.SplitTopic(pkt.body.topic), x) ::
              Entry(TopicNames.SplitTopic(pkt.body.topic), x, after[j].sub) in entries
  {
    LiteralMatchIsLatest(before, TopicNames.SplitTopic(pkt.body.topic), entries);
  }

  /** The steps that a dispatched packet takes: its own, and the loss of the transport after a refused CONNECT. */
  ghost function StepsOf<S>(pkt: Packet, t: nat, step: Option<Step<S>>): seq<Step<S>>
  {
    match step
    case None => []
    case Some(s) => if pkt.body.Connect? && pkt.body.level != 4 then [s, DoClose(t)] else [s]
  }

  /** The steps of a frame. */
  ghost function StepsTaken<S>(o: Unpack.Result, t: nat, client: string, step: Option<Step<S>>): seq<Step<S>>
  {
    match o
    case Ok(pkt) => StepsOf(pkt, t, step)
    case Refused => [DoBadFrame(t, client)]
    case _ => []
  }

  /** So it is the next step of any run that has come to `b`; a refused CONNECT is two. */
  lemma DispatchedExtends(run: Joint<ClientSession>, pkt: Packet, t: nat, client: string, now: int,
                          b: Broker<ClientSession>, before: seq<Op<Subscription>>,
                          step: Option<Step<ClientSession>>, c: Broker<ClientSession>, entries: seq<Entry<Subscription>>,
                          d: Broker<ClientSession>, after: seq<Op<Subscription>>)
    returns (run': Joint<ClientSession>)
    requires Ends(run, b, before) && Dispatched(pkt, t, client, now, b, before, step, c, entries, d, after)
    ensures Ends(run', d, after) && GoesOn(run, run') && run'.steps == run.steps + StepsOf(pkt, t, step)
  {
    run' := run;
    if step.Some? {
      run' := StepOn(run, b, before, step.value, after, entries);
      if pkt.body.Connect? && pkt.body.level != 4 { run' := StepOn(run', c, after, DoClose(t), after, []); }
    }
  }

  /** What the invariants give a handler. */
  ghost predicate Prepared<S>(b: Broker<S>, client: string)
  {
    && RegistryOk(b) && (Known(b, client) ==> HoldsPublishes(b.sessions[b.registry[client]]))
  }

  lemma InvPrepares<S>(b: Broker<S>, client: string)
    requires Inv(b)
    ensures Prepared(b, client)
  {
    if Known(b, client) { StoredArePublishes(b, b.registry[client]); }
  }
}
