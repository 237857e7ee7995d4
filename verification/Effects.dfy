/** What each step does to the broker, in every run, in the broker's own fields: which session it changes and
    how, what it writes, and that it does nothing else. Nothing here uses the functions that the steps are
    made of, but `Route`, which `Routing.EachMatch` takes apart. */
module Effects {
  import opened Packets
  import opened Wrappers
  import opened InflightHistory
  import opened Sessions
  import opened BrokerModel
  import opened BrokerInvariants
  import opened BrokerRuns

  // ---------------------------------------------------------------- packets from a client

  /** The client's session has become `d`, these outputs have been written, and that is all. */
  ghost predicate Served<S>(b: Broker<S>, s: S, now: int, d: Session, outputs: seq<Output>, c: Broker<S>)
  {
    c == b.(clock := now, sessions := b.sessions[s := d], sent := b.sent + outputs)
  }

  /** A QoS 2 PUBLISH, a repeat included, is answered by PUBREC, and stored if its id is free. */
  ghost predicate Qos2Effect<S>(b: Broker<S>, t: nat, s: S, p: Packet, now: int, c: Broker<S>)
    requires s in b.sessions && p.body.Publish?
  {
    var d, id := b.sessions[s], p.body.packetId;
    var stored := if id in d.inflight then d.inflight else d.inflight[id := p];
    Served(b, s, now, d.(lastActivity := now, inflight := stored, history := d.history + [GotPublish(p)]),
           [SentAck(t, PUBREC, id)], c)
  }

  /** PUBACK is not answered; it removes the packet with its id, if there is one. */
  ghost predicate PubackEffect<S>(b: Broker<S>, s: S, id: uint16, now: int, c: Broker<S>)
    requires s in b.sessions
  {
    var d := b.sessions[s];
    Served(b, s, now, d.(lastActivity := now, inflight := d.inflight - {id}, history := d.history + [GotPuback(id)]), [], c)
  }

  /** PUBREC is answered by PUBREL, which is stored unless one is. */
  ghost predicate PubrecEffect<S>(b: Broker<S>, t: nat, s: S, id: uint16, now: int, c: Broker<S>)
    requires s in b.sessions
  {
    var d, pubrel := b.sessions[s], Packet(Header(PUBREL, false, 0, false), 4, Ack(id));
    var stored := if id in d.inflightAck then d.inflightAck else d.inflightAck[id := pubrel];
    Served(b, s, now, d.(lastActivity := now, inflightAck := stored, history := d.history + [GotPubrec(id)]),
           [SentAck(t, PUBREL, id)], c)
  }

  /** PUBCOMP is not answered; it removes the PUBREL with its id. */
  ghost predicate PubcompEffect<S>(b: Broker<S>, s: S, id: uint16, now: int, c: Broker<S>)
    requires s in b.sessions
  {
    var d := b.sessions[s];
    Served(b, s, now, d.(lastActivity := now, inflightAck := d.inflightAck - {id}, history := d.history + [GotPubcomp(id)]),
           [], c)
  }

  /** PUBREL is answered by PUBCOMP, whether or not its id is held. What is held is taken out and routed. */
  ghost predicate PubrelEffect<S>(b: Broker<S>, t: nat, s: S, id: uint16, ms: seq<Match<S>>, now: int, c: Broker<S>)
    requires s in b.sessions
  {
    var d, reply := b.sessions[s], [SentAck(t, PUBCOMP, id)];
    var e := d.(lastActivity := now, inflight := d.inflight - {id}, history := d.history + [GotPubrel(id)]);
    if id !in d.inflight then Served(b, s, now, e, reply, c)
    else
      var heard := b.(clock := now, held := Some(t), sessions := b.sessions[s := e.(routed := d.routed + [d.inflight[id]])]);
      var r := Route(heard, d.inflight[id], ms, now).b;
      c == r.(held := b.held, sent := r.sent + reply)
  }

  /** The client, if it has a session, has been heard of. */
  ghost function Heard<S>(b: Broker<S>, client: string, now: int): map<S, Session>
  {
    if client in b.registry && b.registry[client] in b.sessions
    then b.sessions[b.registry[client] := b.sessions[b.registry[client]].(lastActivity := now)]
    else b.sessions
  }

  /** A PUBLISH with QoS 0 or 1 is routed at once; QoS 1 is answered by PUBACK afterwards. */
  ghost predicate PublishEffect<S>(b: Broker<S>, t: nat, client: string, p: Packet, ms: seq<Match<S>>, now: int, c: Broker<S>)
    requires p.body.Publish?
  {
    var r := Route(b.(clock := now, held := Some(t), sessions := Heard(b, client, now)), p, ms, now).b;
    c == r.(held := b.held, sent := r.sent + if p.header.qos == 1 then [SentAck(t, PUBACK, p.body.packetId)] else [])
  }

  /** SUBSCRIBE is answered by one code for each filter: its QoS, or 128 if that is none. */
  ghost predicate SubscribeEffect<S>(b: Broker<S>, t: nat, client: string, id: uint16, fs: seq<Filter>, now: int, c: Broker<S>)
  {
    exists codes: seq<byte> | |codes| == |fs| ::
      && (forall k | 0 <= k < |fs| :: codes[k] == if fs[k].qos <= 2 then fs[k].qos else 128)
      && c == b.(clock := now, sessions := Heard(b, client, now), sent := b.sent + [SentSuback(t, id, codes)])
  }

  ghost predicate PingreqEffect<S>(b: Broker<S>, t: nat, client: string, now: int, c: Broker<S>)
  {
    c == b.(clock := now, sessions := Heard(b, client, now), sent := b.sent + [SentPing(t)])
  }

  // ---------------------------------------------------------------- transports and CONNECT

  ghost predicate OpenEffect<S>(b: Broker<S>, c: Broker<S>)
  {
    var t := b.nextTransport;
    t !in b.transports && c == b.(transports := b.transports + {t}, nextTransport := t + 1)
  }

  /** A frame that cannot be decoded costs a client with a session its transport, and a clean session its
      registration. */
  ghost predicate BadFrameEffect<S>(b: Broker<S>, t: nat, client: string, c: Broker<S>)
    requires RegistryOk(b)
  {
    if client !in b.registry then c == b
    else
      var clean := b.sessions[b.registry[client]].cleanSession;
      c == b.(transports := b.transports - {t}, registry := if clean then b.registry - {client} else b.registry)
  }

  /** Whoever is registered under the client id is not connected any more, and has lost its transport if it
      was. */
  ghost function Vacated<S>(b: Broker<S>, client: string): Broker<S>
    requires RegistryOk(b)
  {
    if client !in b.registry then b
    else
      var s := b.registry[client];
      var d := b.sessions[s];
      b.(sessions := b.sessions[s := d.(connected := false)],
         transports := if d.connected && d.transport.Some? then b.transports - {d.transport.value} else b.transports)
  }

  /** CONNECT under a free client id, or with the clean session flag. At level 4 a new session takes the id,
      with the terms of the request, nothing stored, and an expiry entry at its deadline. The answer says that
      no session was present. */
  ghost predicate FreshEffect<S>(b: Broker<S>, t: nat, r: ConnectRequest, s: S, now: int, c: Broker<S>)
    requires RegistryOk(b)
  {
    var gone := Vacated(b, r.clientId).(clock := now);
    if r.level != 4
    then c == gone.(registry := b.registry - {r.clientId}, sent := b.sent + [SentConnack(t, false, 1)])
    else s !in b.sessions && StartsAs(gone, t, r, s, now, c)
  }

  ghost predicate StartsAs<S>(gone: Broker<S>, t: nat, r: ConnectRequest, s: S, now: int, c: Broker<S>)
  {
    var expires, deadline := r.keepAlive > 0, now + 1500 * r.keepAlive;
    var d := Session(r.clientId, r.keepAlive, r.cleanSession, true, Some(t), if expires then deadline else 0, now,
                     map[], map[], [], 1, [], []);
    c == gone.(registry := gone.registry[r.clientId := s], sessions := gone.sessions[s := d],
               expiry := if expires then gone.expiry + multiset{Timed(deadline, s)} else gone.expiry,
               sent := gone.sent + [SentConnack(t, false, 0)])
  }

  /** CONNECT of a registered client without that flag. Its session takes the new terms and keeps what it has
      stored; it is not connected afterwards. The answer, the last of what is written, says that the session
      was present. */
  ghost predicate ResumedEffect<S>(b: Broker<S>, t: nat, r: ConnectRequest, now: int, c: Broker<S>)
    requires RegistryOk(b) && r.clientId in b.registry
  {
    var s := b.registry[r.clientId];
    var d := b.sessions[s].(keepAlive := r.keepAlive, cleanSession := false, connected := false,
                            history := b.sessions[s].history + [Resumed]);
    && b.sent < c.sent && c.sent[|c.sent| - 1] == SentConnack(t, true, if r.level == 4 then 0 else 1)
    && c == Vacated(b, r.clientId).(clock := now, sessions := b.sessions[s := d], sent := c.sent)
  }

  // ---------------------------------------------------------------- every step

  ghost predicate RetransmitEffect<S>(b: Broker<S>, e: Timed<Retry<S>>, due: int, ms: seq<Match<S>>, now: int, c: Broker<S>)
  {
    var s, id := e.item.session, e.item.packetId;
    && e in b.retransmit && e.key <= due && (forall x | x in b.retransmit :: e.key <= x.key)
    && s in b.sessions && id in b.sessions[s].inflight
    && b.sessions[s].clientId in b.registry && b.registry[b.sessions[s].clientId] == s
    && var p := b.sessions[s].inflight[id];
       var r := Route(b.(clock := now), p.(header := p.header.(dup := true)), ms, now).b;
       c == r.(retransmit := r.retransmit - multiset{e})
  }

  /** What each step does. Clients without a session change nothing by what needs one. The expiry pass is
      taken apart in `ExpiryEffects`. */
  ghost predicate Effect<S>(b: Broker<S>, step: Step<S>, c: Broker<S>)
    requires RegistryOk(b)
  {
    match step
    case DoOpen => OpenEffect(b, c)
    case DoClose(t) => c == b.(transports := b.transports - {t})
    case DoBadFrame(t, client) => BadFrameEffect(b, t, client, c)
    case DoConnect(t, r, newcomer, _, now) =>
      if r.clientId in b.registry && !r.cleanSession then ResumedEffect(b, t, r, now, c)
      else FreshEffect(b, t, r, newcomer, now, c)
    case DoPublish(t, client, p, ms, now) =>
      && p.body.Publish?
      && if p.header.qos < 2 then PublishEffect(b, t, client, p, ms, now, c)
         else if client in b.registry then Qos2Effect(b, t, b.registry[client], p, now, c)
         else c == b.(clock := now)
    case DoSubscribe(t, client, id, fs, now) => SubscribeEffect(b, t, client, id, fs, now, c)
    case DoPuback(client, id, now) =>
      if client in b.registry then PubackEffect(b, b.registry[client], id, now, c) else c == b.(clock := now)
    case DoPubrec(t, client, id, now) =>
      if client in b.registry then PubrecEffect(b, t, b.registry[client], id, now, c) else c == b.(clock := now)
    case DoPubrel(t, client, id, ms, now) =>
      if client in b.registry then PubrelEffect(b, t, b.registry[client], id, ms, now, c) else c == b.(clock := now)
    case DoPubcomp(client, id, now) =>
      if client in b.registry then PubcompEffect(b, b.registry[client], id, now, c) else c == b.(clock := now)
    case DoPingreq(t, client, now) => PingreqEffect(b, t, client, now, c)
    case DoExpire(_, _) => true
    case DoRetransmit(e, due, ms, now) => RetransmitEffect(b, e, due, ms, now, c)
  }

  /** What is stored under its own id by the last of two changes is what counts. */
  lemma LastCounts<S>(b: Broker<S>, s: S, d: Session, e: Session)
    ensures With(With(b, s, d), s, e) == With(b, s, e)
  {
    assert b.sessions[s := d][s := e] == b.sessions[s := e];
  }

  lemma Qos2Step<S>(b: Broker<S>, t: nat, client: string, p: Packet, now: int)
    requires Known(b, client) && p.body.Publish? && p.header.qos >= 2
    ensures Qos2Effect(b, t, b.registry[client], p, now, HandlePublish(b, t, client, p, [], now))
  {
    var s := b.registry[client];
    var d := b.sessions[s].(lastActivity := now);
    LastCounts(b.(clock := now), s, d, Store(d, p, GotPublish(p)));
  }

  lemma AckSteps<S>(b: Broker<S>, t: nat, client: string, id: uint16, now: int)
    requires Known(b, client)
    ensures PubackEffect(b, b.registry[client], id, now, HandlePuback(b, client, id, now))
    ensures PubrecEffect(b, t, b.registry[client], id, now, HandlePubrec(b, t, client, id, now))
    ensures PubcompEffect(b, b.registry[client], id, now, HandlePubcomp(b, client, id, now))
  {
    var s := b.registry[client];
    var d := b.sessions[s].(lastActivity := now);
    LastCounts(b.(clock := now), s, d, Pubacked(d, id));
    LastCounts(b.(clock := now), s, d, Pubrecced(d, id));
    LastCounts(b.(clock := now), s, d, Pubcomped(d, id));
  }

  lemma PubrelStep<S>(b: Broker<S>, t: nat, client: string, id: uint16, ms: seq<Match<S>>, now: int)
    requires Known(b, client) && StorageInv(b)
    ensures PubrelEffect(b, t, b.registry[client], id, ms, now, Release(HandlePubrel(Hold(b, t), t, client, id, ms, now)).(held := b.held))
  {
    var s := b.registry[client];
    var d := b.sessions[s];
    assert HistoryOk(d);
    StoredPackets(d.history);
    var heard := d.(lastActivity := now);
    LastCounts(Hold(b, t).(clock := now), s, heard, Released(heard, id));
  }

  lemma HeardIsTouch<S>(b: Broker<S>, client: string, now: int)
    ensures Touch(b, client, now) == b.(clock := now, sessions := Heard(b, client, now))
  {
  }

  lemma PublishStep<S>(b: Broker<S>, t: nat, client: string, p: Packet, ms: seq<Match<S>>, now: int)
    requires p.body.Publish? && p.header.qos < 2
    ensures PublishEffect(b, t, client, p, ms, now, HandlePublish(Hold(b, t), t, client, p, ms, now).(held := b.held))
  {
    HeardIsTouch(Hold(b, t), client, now);
    var r := Route(b.(clock := now, held := Some(t), sessions := Heard(b, client, now)), p, ms, now).b;
    assert r.sent + [] == r.sent;
  }

  lemma SubscribeStep<S>(b: Broker<S>, t: nat, client: string, id: uint16, fs: seq<Filter>, now: int)
    ensures SubscribeEffect(b, t, client, id, fs, now, HandleSubscribe(b, t, client, id, fs, now))
  {
    HeardIsTouch(b, client, now);
  }

  lemma FreshStep<S>(b: Broker<S>, t: nat, r: ConnectRequest, s: S, order: ResendOrder, now: int)
    requires RegistryOk(b) && !Resumes(b, r) && (r.level == 4 ==> s !in b.sessions)
    ensures FreshEffect(b, t, r, s, now, HandleConnect(b, t, r, s, order, now))
  {
    TakenOverIsVacated(b, r, now);
    var b1, gone := TakeOver(b.(clock := now), r), Vacated(b, r.clientId).(clock := now);
    if r.level == 4 {
      assert b1.registry[r.clientId := s] == gone.registry[r.clientId := s];
      FreshIsScheduled(b1, t, r, s, now);
    }
  }

  lemma TakenOverIsVacated<S>(b: Broker<S>, r: ConnectRequest, now: int)
    requires RegistryOk(b)
    ensures TakeOver(b.(clock := now), r) == Vacated(b, r.clientId).(
              clock := now, registry := if r.cleanSession then b.registry - {r.clientId} else b.registry)
  {
    if r.clientId !in b.registry {
      assert b.registry - {r.clientId} == b.registry;
    } else {
      var s := b.registry[r.clientId];
      assert !b.sessions[s].connected ==> b.sessions[s := b.sessions[s].(connected := false)] == b.sessions;
    }
  }

  lemma FreshIsScheduled<S>(b: Broker<S>, t: nat, r: ConnectRequest, s: S, now: int)
    ensures StartsAs(b, t, r, s, now,
                     Emit(ScheduleExpiry(Registered(b, s, FirstData(r, t, now)), s), SentConnack(t, false, 0)))
  {
    var d := FirstData(r, t, now);
    LastCounts(b, s, d, d.(expiryMs := now + 1500 * r.keepAlive));
  }

  lemma ResumedStep<S>(b: Broker<S>, t: nat, r: ConnectRequest, s: S, order: ResendOrder, now: int)
    requires RegistryOk(b) && Resumes(b, r)
    ensures ResumedEffect(b, t, r, now, HandleConnect(b, t, r, s, order, now))
  {
    TakenOverIsVacated(b, r, now);
    var x, b1 := b.registry[r.clientId], TakeOver(b.(clock := now), r);
    LastCounts(b, x, b1.sessions[x], ResumedData(b1.sessions[x], r));
    assert b1.sent <= ResendStored(b1, x, order).sent;
  }

  /** A step that is made while its transport is held. */
  lemma ConnectStep<S>(b: Broker<S>, t: nat, r: ConnectRequest, s: S, order: ResendOrder, now: int)
    requires RegistryOk(b) && b.held == None && (Registers(b, r) ==> s !in b.sessions)
    ensures Effect(b, DoConnect(t, r, s, order, now), Release(HandleConnect(Hold(b, t), t, r, s, order, now)))
  {
    if Resumes(b, r) { ResumedStep(Hold(b, t), t, r, s, order, now); } else { FreshStep(Hold(b, t), t, r, s, order, now); }
  }

  lemma RetransmitStep<S>(b: Broker<S>, e: Timed<Retry<S>>, due: int, ms: seq<Match<S>>, now: int)
    requires Inv(b) && Enabled(b, DoRetransmit(e, due, ms, now))
    ensures RetransmitEffect(b, e, due, ms, now, Retransmit(b, e, ms, now))
  {
  }

  lemma StepHasEffect<S>(b: Broker<S>, step: Step<S>)
    requires Inv(b) && Enabled(b, step)
    ensures Effect(b, step, Next(b, step))
  {
    match step
    case DoConnect(t, r, newcomer, order, now) => ConnectStep(b, t, r, newcomer, order, now);
    case DoPublish(t, client, p, ms, now) =>
      if p.header.qos < 2 { PublishStep(b, t, client, p, ms, now); }
      else if client in b.registry { Qos2Step(Hold(b, t), t, client, p, now); }
    case DoSubscribe(t, client, id, fs, now) => SubscribeStep(b, t, client, id, fs, now);
    case DoPuback(client, id, now) => if client in b.registry { AckSteps(b, 0, client, id, now); }
    case DoPubrec(t, client, id, now) => if client in b.registry { AckSteps(b, t, client, id, now); }
    case DoPubcomp(client, id, now) => if client in b.registry { AckSteps(b, 0, client, id, now); }
    case DoPubrel(t, client, id, ms, now) => if client in b.registry { PubrelStep(b, t, client, id, ms, now); }
    case DoPingreq(t, client, now) => HeardIsTouch(b, client, now);
    case DoRetransmit(e, due, ms, now) => RetransmitStep(b, e, due, ms, now);
    case _ =>
  }

  /** Over every run, every step has its effect and no other. */
  lemma EveryStep<S>(states: seq<Broker<S>>, steps: seq<Step<S>>, i: nat)
    requires Execution(states, steps) && i < |steps|
    ensures RegistryOk(states[i]) && Effect(states[i], steps[i], states[i + 1])
  {
    ReachableStates(states, steps, i);
    StepHasEffect(states[i], steps[i]);
  }

  /** What a session gets written for the packets of a QoS 2 flow: PUBREC for a PUBLISH, first or repeated, PUBREL
      for a PUBREC, PUBCOMP for a PUBREL whose id it does not hold, and nothing for PUBACK and PUBCOMP. A client
      without a session gets nothing. */
  lemma Answers<S>(states: seq<Broker<S>>, steps: seq<Step<S>>, i: nat)
    requires Execution(states, steps) && i < |steps|
    ensures var b, c, st := states[i], states[i + 1], steps[i];
            && (st.DoPublish? && st.packet.header.qos >= 2 ==>
                  && st.packet.body.Publish?
                  && c.sent == b.sent + if st.client in b.registry then [SentAck(st.t, PUBREC, st.packet.body.packetId)] else [])
            && (st.DoPubrec? ==>
                  c.sent == b.sent + if st.client in b.registry then [SentAck(st.t, PUBREL, st.packetId)] else [])
            && (st.DoPubrel? ==>
                  if st.client !in b.registry then c.sent == b.sent
                  else st.packetId !in b.sessions[b.registry[st.client]].inflight ==>
                         c.sent == b.sent + [SentAck(st.t, PUBCOMP, st.packetId)])
            && (st.DoPuback? || st.DoPubcomp? ==> c.sent == b.sent)
  {
    EveryStep(states, steps, i);
  }

  // ---------------------------------------------------------------- when a pass can be made

  /** In every reachable state: an entry of the retransmission heap can be sent again if and only if it is due, its
      session is registered, and the session holds a packet under its id. */
  lemma SendableIff<S>(states: seq<Broker<S>>, steps: seq<Step<S>>, i: nat, e: Timed<Retry<S>>, due: int)
    requires Execution(states, steps) && i < |states| && e in states[i].retransmit
    ensures var b, s := states[i], e.item.session;
            CanRetransmit(b, e, due)
            <==> && e.key <= due && s in b.sessions && e.item.packetId in b.sessions[s].inflight
                 && b.sessions[s].clientId in b.registry && b.registry[b.sessions[s].clientId] == s
  {
    ReachableStates(states, steps, i);
    StoredIsSendable(states[i], e, due);
  }

  lemma StoredIsSendable<S>(b: Broker<S>, e: Timed<Retry<S>>, due: int)
    requires StorageInv(b) && e in b.retransmit
    ensures CanRetransmit(b, e, due)
       <==> e.key <= due && Live(b, e.item.session) && e.item.packetId in b.sessions[e.item.session].inflight
  {
    if Live(b, e.item.session) {
      assert HistoryOk(b.sessions[e.item.session]);
      StoredPackets(b.sessions[e.item.session].history);
    }
  }
}
