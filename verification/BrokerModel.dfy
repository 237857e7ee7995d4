/** The broker's session state as a value, and each handler and maintenance pass as one step on it.

    `S` identifies a session object. Three choices of the original that the state does not decide
    are arguments of the steps: the subscriptions a topic match returns, the order in which due
    heap entries come up, and the clock, which never goes back.
 */
module BrokerModel {
  import opened Packets
  import opened Wrappers
  import opened InflightHistory
  import opened Sessions

  const RETRY_INTERVAL_MS: int := 5000

  /** A heap entry: `key` is the time at which `item` is due. */
  datatype Timed<T> = Timed(key: int, item: T)

  datatype Retry<S> = Retry(packetId: uint16, packetType: byte, session: S)

  /** A subscription returned by a topic match. */
  datatype Match<S> = Match(session: S, qos: byte)

  /** What is written to a transport. */
  datatype Output =
    | SentPublish(transport: nat, packet: Packet, packetId: uint16)
    | SentAck(transport: nat, ptype: byte, packetId: uint16)
    | SentSuback(transport: nat, packetId: uint16, codes: seq<byte>)
    | SentConnack(transport: nat, sessionPresent: bool, returnCode: byte)
    | SentPing(transport: nat)

  /** `transports` are the network sessions in the session table, `nextTransport` a name no transport has
      had. `held` is the transport whose packet is being handled, if any: its handler keeps it alive. */
  datatype Broker<S> = Broker(
    registry: map<string, S>,
    sessions: map<S, Session>,
    transports: set<nat>,
    nextTransport: nat,
    expiry: multiset<Timed<S>>,
    retransmit: multiset<Timed<Retry<S>>>,
    sent: seq<Output>,
    held: Option<nat>,
    clock: int)

  /** `weak_ptr<ClientSession>::lock` succeeds: the registry still owns the session. */
  ghost predicate Live<S>(b: Broker<S>, s: S)
  {
    s in b.sessions && b.sessions[s].clientId in b.registry && b.registry[b.sessions[s].clientId] == s
  }

  /** The session's transport is in the session table. */
  ghost predicate Online<S>(b: Broker<S>, s: S)
    requires s in b.sessions
  {
    b.sessions[s].transport.Some? && b.sessions[s].transport.value in b.transports
  }

  /** `weak_ptr<MqttSession>::lock` succeeds for the session's transport: it is in the session table, or
      it has been taken out but the packet being handled came over it. */
  ghost predicate Writable<S>(b: Broker<S>, s: S)
    requires s in b.sessions
  {
    Online(b, s) || (b.sessions[s].transport.Some? && b.held == b.sessions[s].transport)
  }

  ghost function Hold<S>(b: Broker<S>, t: nat): Broker<S>
  {
    b.(held := Some(t))
  }

  ghost function Release<S>(b: Broker<S>): Broker<S>
  {
    b.(held := None)
  }

  ghost function With<S>(b: Broker<S>, s: S, d: Session): Broker<S>
  {
    b.(sessions := b.sessions[s := d])
  }

  ghost function Emit<S>(b: Broker<S>, o: Output): Broker<S>
  {
    b.(sent := b.sent + [o])
  }

  /** `updateActivity` for whatever client the transport belongs to. */
  ghost function Touch<S>(b: Broker<S>, client: string, now: int): Broker<S>
  {
    var c := b.(clock := now);
    if client in b.registry && b.registry[client] in b.sessions
    then With(c, b.registry[client], b.sessions[b.registry[client]].(lastActivity := now))
    else c
  }

  // ---------------------------------------------------------------- keep-alive

  ghost function ScheduleExpiry<S>(b: Broker<S>, s: S): Broker<S>
    requires s in b.sessions
  {
    var d := b.sessions[s];
    if d.keepAlive == 0 then b
    else With(b, s, d.(expiryMs := d.Deadline())).(expiry := b.expiry + multiset{Timed(d.Deadline(), s)})
  }

  /** The popped entries whose sessions really are overdue, and those that were merely stale. */
  ghost function Overdue<S>(b: Broker<S>, order: seq<Timed<S>>, now: int): (r: seq<S>)
    requires forall e | e in order :: e.item in b.sessions
    ensures forall s | s in r :: s in b.sessions
  {
    if order == [] then []
    else
      var n := |order| - 1;
      var rest, d := Overdue(b, order[..n], now), b.sessions[order[n].item];
      if d.Deadline() <= now && d.connected then rest + [order[n].item] else rest
  }

  ghost function Stale<S>(b: Broker<S>, order: seq<Timed<S>>, now: int): (r: seq<S>)
    requires forall e | e in order :: e.item in b.sessions
    ensures forall s | s in r :: s in b.sessions
  {
    if order == [] then []
    else
      var n := |order| - 1;
      var rest := Stale(b, order[..n], now);
      if b.sessions[order[n].item].Deadline() > now then rest + [order[n].item] else rest
  }

  ghost function Disconnect<S>(b: Broker<S>, s: S): Broker<S>
    requires s in b.sessions
  {
    if !Online(b, s) then b
    else
      var d := b.sessions[s];
      var c := b.(transports := b.transports - {d.transport.value});
      if d.cleanSession then c.(registry := b.registry - {d.clientId})
      else With(c, s, d.(connected := false))
  }

  ghost function DisconnectAll<S>(b: Broker<S>, ss: seq<S>): (r: Broker<S>)
    requires forall s | s in ss :: s in b.sessions
    ensures r.sessions.Keys == b.sessions.Keys
  {
    if ss == [] then b else Disconnect(DisconnectAll(b, ss[..|ss| - 1]), ss[|ss| - 1])
  }

  ghost function ScheduleAll<S>(b: Broker<S>, ss: seq<S>): (r: Broker<S>)
    requires forall s | s in ss :: s in b.sessions
    ensures r.sessions.Keys == b.sessions.Keys
  {
    if ss == [] then b else ScheduleExpiry(ScheduleAll(b, ss[..|ss| - 1]), ss[|ss| - 1])
  }

  /** `order` lists the due heap entries as they come up. */
  ghost predicate DrainOrder<S>(b: Broker<S>, order: seq<Timed<S>>, now: int)
  {
    && multiset(order) <= b.expiry
    && (forall e | e in order :: e.key <= now)
    && (forall e | e in b.expiry - multiset(order) :: e.key > now)
  }

  /** `processExpiredSessions`, when every due entry's session is still alive. */
  ghost function Expire<S>(b: Broker<S>, order: seq<Timed<S>>, now: int): Broker<S>
    requires forall e | e in order :: e.item in b.sessions
  {
    var popped := b.(clock := now, expiry := b.expiry - multiset(order));
    ScheduleAll(DisconnectAll(popped, Overdue(b, order, now)), Stale(b, order, now))
  }

  // ---------------------------------------------------------------- routing

  ghost function WithQos(p: Packet, qos: byte): Packet
  {
    p.(header := p.header.(qos := qos))
  }

  function WithDup(p: Packet): Packet
  {
    p.(header := p.header.(dup := true))
  }

  ghost function Store(d: Session, p: Packet, e: Event): Session
  {
    d.(inflight := InsertIfAbsent(d.inflight, IdOf(p), p)).Saw(e)
  }

  /** What `sendToClient` keeps of a PUBLISH with a QoS above 0: a copy and a retransmission entry. */
  ghost function Keep<S>(b: Broker<S>, s: S, p: Packet, now: int): Broker<S>
    requires s in b.sessions
  {
    if p.header.qos == 0 then b
    else
      var d, due := b.sessions[s], now + RETRY_INTERVAL_MS;
      var id := d.NextId();
      With(b, s, Store(d.(nextPacketId := id), p, Delivered(p, id, due))).(
        retransmit := b.retransmit + multiset{Timed(due, Retry(id, p.header.ptype, s))})
  }

  /** `sendToClient` for a PUBLISH. */
  ghost function Send<S>(b: Broker<S>, s: S, p: Packet, now: int): Broker<S>
    requires s in b.sessions
  {
    var d, c := b.sessions[s], Keep(b, s, p, now);
    if Writable(b, s) then Emit(c, SentPublish(d.transport.value, p, if p.header.qos > 0 then d.NextId() else 0)) else c
  }

  /** `sendToClient`, which serves acknowledgements too. */
  ghost function SendAny<S>(b: Broker<S>, s: S, p: Packet, now: int): Broker<S>
    requires s in b.sessions && (p.header.ptype == PUBLISH || p.body.Ack?)
  {
    if p.header.ptype == PUBLISH then Send(b, s, p, now)
    else if Writable(b, s) then Emit(b, SentAck(b.sessions[s].transport.value, p.header.ptype, p.body.packetId))
    else b
  }

  predicate Routable(p: Packet)
  {
    p.header.ptype == PUBLISH && p.body.Publish?
  }

  datatype Routed<S> = Routed(b: Broker<S>, qos: byte)

  function Min(a: byte, b: byte): byte
  {
    if a < b then a else b
  }

  /** One match of `routePacket`; `qos` is what the earlier matches left in the packet's header. */
  ghost function RouteOne<S>(b: Broker<S>, p: Packet, qos: byte, m: Match<S>, now: int): Routed<S>
  {
    if !Live(b, m.session) then Routed(b, qos)
    else
      var d := b.sessions[m.session];
      if !d.connected then
        Routed(if qos > 0 then With(b, m.session, d.(messageQueue := d.messageQueue + [WithQos(p, qos)])) else b, qos)
      else
        var q := Min(qos, m.qos);
        Routed(Send(b, m.session, WithQos(p, q), now), q)
  }

  /** `routePacket` over the first matches of a topic. */
  ghost function Route<S>(b: Broker<S>, p: Packet, ms: seq<Match<S>>, now: int): Routed<S>
  {
    if ms == [] then Routed(b, p.header.qos)
    else
      var r := Route(b, p, ms[..|ms| - 1], now);
      RouteOne(r.b, p, r.qos, ms[|ms| - 1], now)
  }

  /** One pass of `processRetransmissions`: the top entry is due and its packet is still stored. */
  ghost predicate CanRetransmit<S>(b: Broker<S>, e: Timed<Retry<S>>, due: int)
  {
    && e.key <= due && Live(b, e.item.session)
    && StoredPacket(b.sessions[e.item.session], e.item.packetId, e.item.packetType).pktLen > 0
  }

  /** The stored PUBLISH is routed afresh with its DUP flag set; any other packet is acknowledged
      again on the session's own transport. */
  ghost function Resent<S>(b: Broker<S>, r: Retry<S>, p: Packet, ms: seq<Match<S>>, now: int): Broker<S>
    requires r.session in b.sessions
  {
    if r.packetType == PUBLISH then Route(b, WithDup(p), ms, now).b
    else if Writable(b, r.session)
    then Emit(b, SentAck(b.sessions[r.session].transport.value, p.header.ptype, r.packetId))
    else b
  }

  ghost function Retransmit<S>(b: Broker<S>, e: Timed<Retry<S>>, ms: seq<Match<S>>, now: int): Broker<S>
    requires e.item.session in b.sessions
  {
    var p := StoredPacket(b.sessions[e.item.session], e.item.packetId, e.item.packetType);
    var r := Resent(b.(clock := now), e.item, p, ms, now);
    r.(retransmit := r.retransmit - multiset{e})
  }

  // ---------------------------------------------------------------- the packet handlers

  datatype ConnectRequest = ConnectRequest(level: byte, cleanSession: bool, keepAlive: uint16, clientId: string)

  /** A resumed session takes the new terms; it is neither connected nor attached to the transport. */
  function ResumedData(d: Session, r: ConnectRequest): Session
  {
    d.(keepAlive := r.keepAlive, cleanSession := r.cleanSession,
       connected := if r.level == 4 then d.connected else false).Saw(Resumed)
  }

  function FirstData(r: ConnectRequest, t: nat, now: int): Session
  {
    NewSession(r.clientId).(keepAlive := r.keepAlive, cleanSession := r.cleanSession, connected := true,
                            transport := Some(t), lastActivity := now)
  }

  ghost function Registered<S>(b: Broker<S>, s: S, d: Session): Broker<S>
  {
    With(b, s, d).(registry := b.registry[d.clientId := s])
  }

  ghost predicate Resumes<S>(b: Broker<S>, r: ConnectRequest)
  {
    r.clientId in b.registry && !r.cleanSession
  }

  /** The session that resumes came over the very transport that this CONNECT comes over. */
  ghost predicate ResumesOver<S>(b: Broker<S>, t: nat, r: ConnectRequest)
  {
    Resumes(b, r) && b.registry[r.clientId] in b.sessions && b.sessions[b.registry[r.clientId]].transport == Some(t)
  }

  /** CONNECT registers a new session: no session is resumed, and the protocol level is 4. */
  ghost predicate Registers<S>(b: Broker<S>, r: ConnectRequest)
  {
    !Resumes(b, r) && r.level == 4
  }

  // ---------------------------------------------------------------- sending again on resumption

  /** The order in which the entries of a resumed session's two maps come up. */
  datatype ResendOrder = ResendOrder(publishes: seq<uint16>, acks: seq<uint16>)

  const NO_RESEND := ResendOrder([], [])

  /** Each of the keys, once. */
  ghost predicate ListsEach(ids: seq<uint16>, keys: set<uint16>)
  {
    (forall k :: k in ids <==> k in keys) && forall i, j | 0 <= i < j < |ids| :: ids[i] != ids[j]
  }

  ghost predicate OrderOf(order: ResendOrder, d: Session)
  {
    ListsEach(order.publishes, d.inflight.Keys) && ListsEach(order.acks, d.inflightAck.Keys)
  }

  /** `resendMessages` for one entry: a PUBLISH goes out with its DUP flag set, a PUBREL as it is. */
  function ResendOne(t: nat, stored: map<uint16, Packet>, id: uint16): seq<Output>
  {
    if id !in stored then []
    else if stored[id].header.ptype == PUBLISH then [SentPublish(t, WithDup(stored[id]), id)]
    else if stored[id].header.ptype == PUBREL then [SentAck(t, PUBREL, id)]
    else []
  }

  function ResendEach(t: nat, stored: map<uint16, Packet>, ids: seq<uint16>): seq<Output>
  {
    if ids == [] then [] else ResendEach(t, stored, ids[..|ids| - 1]) + ResendOne(t, stored, ids[|ids| - 1])
  }

  /** A resumed session's stored packets go out again, if its transport can still be written to. */
  ghost function ResendStored<S>(b: Broker<S>, s: S, order: ResendOrder): Broker<S>
    requires s in b.sessions
  {
    var d := b.sessions[s];
    if !Writable(b, s) then b
    else b.(sent := b.sent + ResendEach(d.transport.value, d.inflight, order.publishes)
                    + ResendEach(d.transport.value, d.inflightAck, order.acks))
  }

  /** `connectHandler` from transport `t`; `newcomer` names the session object it may create. */
  ghost function HandleConnect<S>(b: Broker<S>, t: nat, r: ConnectRequest, newcomer: S, order: ResendOrder, now: int)
    : Broker<S>
    requires forall c | c in b.registry :: b.registry[c] in b.sessions
  {
    var b1 := TakeOver(b.(clock := now), r);
    Emit(Admit(b1, Resumes(b, r), t, r, newcomer, order, now), ConnackTo(t, Resumes(b, r), r.level))
  }

  function ConnackTo(t: nat, resumes: bool, level: byte): Output
  {
    SentConnack(t, resumes, if level == 4 then 0 else 1)
  }

  /** After that, a session is resumed or a new one registered, unless the level is wrong. */
  ghost function Admit<S>(b: Broker<S>, resumes: bool, t: nat, r: ConnectRequest, newcomer: S, order: ResendOrder,
                          now: int): Broker<S>
    requires resumes ==> r.clientId in b.registry && b.registry[r.clientId] in b.sessions
  {
    if resumes then
      var s := b.registry[r.clientId];
      With(ResendStored(b, s, order), s, ResumedData(b.sessions[s], r))
    else if r.level == 4 then ScheduleExpiry(Registered(b, newcomer, FirstData(r, t, now)), newcomer)
    else b
  }

  /** What CONNECT does first to a session already registered under the client id: its transport is
      closed if it was connected, and a clean session drops it from the registry. */
  ghost function TakeOver<S>(b: Broker<S>, r: ConnectRequest): (b1: Broker<S>)
    requires forall c | c in b.registry :: b.registry[c] in b.sessions
    ensures b1.sessions.Keys == b.sessions.Keys
  {
    if r.clientId !in b.registry then b
    else
      var s := b.registry[r.clientId];
      var d := b.sessions[s];
      var b1 :=
        if !d.connected then b
        else With(b, s, d.(connected := false)).(
               transports := if Online(b, s) then b.transports - {d.transport.value} else b.transports);
      if r.cleanSession then b1.(registry := b1.registry - {r.clientId}) else b1
  }

  ghost function HandlePublish<S>(b: Broker<S>, t: nat, client: string, p: Packet, ms: seq<Match<S>>, now: int): Broker<S>
  {
    var c := Touch(b, client, now);
    if p.header.qos == 0 then Route(c, p, ms, now).b
    else if p.header.qos == 1 then Emit(Route(c, p, ms, now).b, SentAck(t, PUBACK, IdOf(p)))
    else if client in c.registry && c.registry[client] in c.sessions then
      var s := c.registry[client];
      Emit(With(c, s, Store(c.sessions[s], p, GotPublish(p))), SentAck(t, PUBREC, IdOf(p)))
    else c
  }

  /** The registered session of a client, changed by `f`. */
  ghost function OnSession<S>(b: Broker<S>, client: string, f: Session -> Session): Broker<S>
  {
    if client in b.registry && b.registry[client] in b.sessions
    then With(b, b.registry[client], f(b.sessions[b.registry[client]]))
    else b
  }

  function Pubacked(d: Session, id: uint16): Session
  {
    d.(inflight := d.inflight - {id}).Saw(GotPuback(id))
  }

  function Pubrecced(d: Session, id: uint16): Session
  {
    d.(inflightAck := InsertIfAbsent(d.inflightAck, id, PubrelFor(id))).Saw(GotPubrec(id))
  }

  function Pubcomped(d: Session, id: uint16): Session
  {
    d.(inflightAck := d.inflightAck - {id}).Saw(GotPubcomp(id))
  }

  ghost predicate Known<S>(b: Broker<S>, client: string)
  {
    client in b.registry && b.registry[client] in b.sessions
  }

  ghost function HandlePuback<S>(b: Broker<S>, client: string, id: uint16, now: int): Broker<S>
  {
    OnSession(Touch(b, client, now), client,
              (d: Session) => Pubacked(d, id))
  }

  ghost function HandlePubrec<S>(b: Broker<S>, t: nat, client: string, id: uint16, now: int): Broker<S>
  {
    var c := OnSession(Touch(b, client, now), client,
                       (d: Session) => Pubrecced(d, id));
    if Known(b, client) then Emit(c, SentAck(t, PUBREL, id)) else c
  }

  ghost function HandlePubcomp<S>(b: Broker<S>, client: string, id: uint16, now: int): Broker<S>
  {
    OnSession(Touch(b, client, now), client,
              (d: Session) => Pubcomped(d, id))
  }

  /** The session after `pubrelHandler` has taken the packet out, and the packet, if there is one. */
  ghost function Released(d: Session, id: uint16): Session
  {
    d.(inflight := d.inflight - {id},
       routed := if id in d.inflight && d.inflight[id].header.ptype == PUBLISH
                 then d.routed + [d.inflight[id]] else d.routed).Saw(GotPubrel(id))
  }

  /** The session gives up the packet it holds under an id; a PUBLISH is routed. */
  ghost function ReleaseAndRoute<S>(b: Broker<S>, s: S, id: uint16, ms: seq<Match<S>>, now: int): Broker<S>
    requires s in b.sessions
  {
    var d := b.sessions[s];
    var taken := With(b, s, Released(d, id));
    if id in d.inflight && d.inflight[id].header.ptype == PUBLISH then Route(taken, d.inflight[id], ms, now).b
    else taken
  }

  ghost function HandlePubrel<S>(b: Broker<S>, t: nat, client: string, id: uint16, ms: seq<Match<S>>, now: int): Broker<S>
  {
    if !Known(b, client) then b.(clock := now)
    else Emit(ReleaseAndRoute(Touch(b, client, now), b.registry[client], id, ms, now), SentAck(t, PUBCOMP, id))
  }

  function SubackCodes(fs: seq<Filter>): seq<byte>
  {
    seq(|fs|, i requires 0 <= i < |fs| => if fs[i].qos < 3 then fs[i].qos else 0x80)
  }

  /** The session part of `subscribeHandler`; the tree part is `TopicTree.Subscribe`. */
  ghost function HandleSubscribe<S>(b: Broker<S>, t: nat, client: string, id: uint16, fs: seq<Filter>, now: int): Broker<S>
  {
    Emit(Touch(b, client, now), SentSuback(t, id, SubackCodes(fs)))
  }

  ghost function HandlePingreq<S>(b: Broker<S>, t: nat, client: string, now: int): Broker<S>
  {
    Emit(Touch(b, client, now), SentPing(t))
  }

  // ---------------------------------------------------------------- transports

  ghost function Open<S>(b: Broker<S>): Broker<S>
  {
    b.(transports := b.transports + {b.nextTransport}, nextTransport := b.nextTransport + 1)
  }

  ghost function Close<S>(b: Broker<S>, t: nat): Broker<S>
  {
    b.(transports := b.transports - {t})
  }

  /** A frame that cannot be decoded: the transport is closed and a clean session is dropped. */
  ghost function BadFrame<S>(b: Broker<S>, t: nat, client: string): Broker<S>
  {
    if !Known(b, client) then b
    else
      var c := if b.sessions[b.registry[client]].cleanSession then b.(registry := b.registry - {client}) else b;
      Close(c, t)
  }

  // ---------------------------------------------------------------- runs

  datatype Step<S> =
    | DoOpen
    | DoClose(t: nat)
    | DoBadFrame(t: nat, client: string)
    | DoConnect(t: nat, request: ConnectRequest, newcomer: S, resend: ResendOrder, now: int)
    | DoPublish(t: nat, client: string, packet: Packet, matches: seq<Match<S>>, now: int)
    | DoSubscribe(t: nat, client: string, packetId: uint16, filters: seq<Filter>, now: int)
    | DoPuback(client: string, packetId: uint16, now: int)
    | DoPubrec(t: nat, client: string, packetId: uint16, now: int)
    | DoPubrel(t: nat, client: string, packetId: uint16, matches: seq<Match<S>>, now: int)
    | DoPubcomp(client: string, packetId: uint16, now: int)
    | DoPingreq(t: nat, client: string, now: int)
    | DoExpire(order: seq<Timed<S>>, now: int)
    | DoRetransmit(entry: Timed<Retry<S>>, due: int, matches: seq<Match<S>>, now: int)
  {
    /** The clock reading of the step, if it takes one. */
    ghost predicate ClockOk(clock: int)
    {
      (DoOpen? || DoClose? || DoBadFrame?) || now >= clock
    }
  }

  /** When a step can happen. Only freshness of names, a monotone clock and, for the maintenance
      passes, that they do not hang or stop: no due expiry entry's session has been freed, and the
      retransmission entry is one with the least key and can be sent. */
  ghost predicate Enabled<S>(b: Broker<S>, step: Step<S>)
  {
    && step.ClockOk(b.clock)
    && match step
       case DoConnect(t, r, newcomer, order, _) =>
         && t < b.nextTransport && (Registers(b, r) ==> newcomer !in b.sessions)
         && (ResumesOver(b, t, r) ==> OrderOf(order, b.sessions[b.registry[r.clientId]]))
       case DoPublish(_, _, p, _, _) => IsPublish(p)
       case DoExpire(order, now) => DrainOrder(b, order, now) && forall e | e in order :: Live(b, e.item)
       case DoRetransmit(e, due, _, now) =>
         && e in b.retransmit && due <= now && CanRetransmit(b, e, due)
         && forall x | x in b.retransmit :: e.key <= x.key
       case _ => true
  }

  /** An expiry pass at `now` does not end: the session of a due entry has been freed. */
  ghost predicate Hangs<S>(b: Broker<S>, now: int)
  {
    exists e :: e in b.expiry && e.key <= now && !Live(b, e.item)
  }

  /** Every registered session is there under its own client id. */
  ghost predicate RegistryOk<S>(b: Broker<S>)
  {
    forall c | c in b.registry :: b.registry[c] in b.sessions && b.sessions[b.registry[c]].clientId == c
  }

  ghost function Next<S>(b: Broker<S>, step: Step<S>): Broker<S>
    requires Enabled(b, step) && RegistryOk(b)
  {
    match step
    case DoOpen => Open(b)
    case DoClose(t) => Close(b, t)
    case DoBadFrame(t, client) => BadFrame(b, t, client)
    case DoConnect(t, r, newcomer, order, now) => Release(HandleConnect(Hold(b, t), t, r, newcomer, order, now))
    case DoPublish(t, client, p, ms, now) => Release(HandlePublish(Hold(b, t), t, client, p, ms, now))
    case DoSubscribe(t, client, id, fs, now) => HandleSubscribe(b, t, client, id, fs, now)
    case DoPuback(client, id, now) => HandlePuback(b, client, id, now)
    case DoPubrec(t, client, id, now) => HandlePubrec(b, t, client, id, now)
    case DoPubrel(t, client, id, ms, now) => Release(HandlePubrel(Hold(b, t), t, client, id, ms, now))
    case DoPubcomp(client, id, now) => HandlePubcomp(b, client, id, now)
    case DoPingreq(t, client, now) => HandlePingreq(b, t, client, now)
    case DoExpire(order, now) => Expire(b, order, now)
    case DoRetransmit(e, _, ms, now) => Retransmit(b, e, ms, now)
  }

  ghost function Initial<S>(clock: int): Broker<S>
  {
    Broker(map[], map[], {}, 0, multiset{}, multiset{}, [], None, clock)
  }
}
