/** What every step of the broker keeps. */
module BrokerInvariants {
  import opened Packets
  import opened InflightHistory
  import opened Sessions
  import opened BrokerModel

  /** The longest time a deadline can lie ahead: 1500 ms for each of at most 65535 seconds. */
  const LONGEST_WAIT: int := 98302500

  // ---------------------------------------------------------------- the keep-alive part

  /** At most one expiry entry for each session object, and none keyed further ahead than any deadline. */
  ghost predicate ExpiryOk<S>(b: Broker<S>)
  {
    && (forall e | e in b.expiry :: e.item in b.sessions && b.expiry[e] == 1 && e.key <= b.clock + LONGEST_WAIT)
    && (forall e, f | e in b.expiry && f in b.expiry && e.item == f.item :: e == f)
  }

  ghost predicate Monitored<S>(b: Broker<S>, s: S)
  {
    Live(b, s) && b.sessions[s].connected && Online(b, s) && b.sessions[s].keepAlive > 0
  }

  /** The session has an expiry entry keyed no later than its true deadline. */
  ghost predicate Watched<S>(b: Broker<S>, s: S)
    requires s in b.sessions
  {
    exists e :: e in b.expiry && e.item == s && e.key <= b.sessions[s].Deadline()
  }

  ghost predicate ActivityOk<S>(b: Broker<S>)
  {
    forall s | s in b.sessions :: b.sessions[s].lastActivity <= b.clock
  }

  /** Transport names are used up to `nextTransport`. */
  ghost predicate TransportsOk<S>(b: Broker<S>)
  {
    && (forall t | t in b.transports :: t < b.nextTransport)
    && (forall s | s in b.sessions && b.sessions[s].transport.Some? :: b.sessions[s].transport.value < b.nextTransport)
  }

  ghost predicate AllWatched<S>(b: Broker<S>)
  {
    forall s | s in b.sessions && Monitored(b, s) :: Watched(b, s)
  }

  /** A registered session that is not connected has no live transport. */
  ghost predicate OfflineOk<S>(b: Broker<S>)
  {
    forall s | s in b.sessions && Live(b, s) && !b.sessions[s].connected :: !Online(b, s)
  }

  ghost predicate KeepAliveInv<S>(b: Broker<S>)
  {
    RegistryOk(b) && ExpiryOk(b) && ActivityOk(b) && TransportsOk(b) && AllWatched(b) && OfflineOk(b)
  }

  /** The fields that keep-alive looks at are the same, except that the session may have been heard of. */
  ghost predicate SameStanding(d: Session, d': Session, clock: int)
  {
    && d'.clientId == d.clientId && d'.keepAlive == d.keepAlive && d'.cleanSession == d.cleanSession
    && d'.connected == d.connected && d'.transport == d.transport
    && d.lastActivity <= d'.lastActivity && (d'.lastActivity == d.lastActivity || d'.lastActivity <= clock)
  }

  /** A step that leaves registry, transports and expiry heap alone. */
  ghost predicate Quiet<S>(b: Broker<S>, c: Broker<S>)
  {
    && c.registry == b.registry && c.transports == b.transports && c.nextTransport == b.nextTransport
    && c.expiry == b.expiry && b.clock <= c.clock && c.sessions.Keys == b.sessions.Keys
    && forall s | s in b.sessions :: SameStanding(b.sessions[s], c.sessions[s], c.clock)
  }

  lemma QuietKeepsWatch<S>(b: Broker<S>, c: Broker<S>)
    requires Quiet(b, c) && AllWatched(b)
    ensures AllWatched(c)
  {
    forall s | s in c.sessions && Monitored(c, s) ensures Watched(c, s) {
      assert Monitored(b, s);
      var e :| e in b.expiry && e.item == s && e.key <= b.sessions[s].Deadline();
      assert e in c.expiry;
    }
  }

  lemma QuietKeepsOffline<S>(b: Broker<S>, c: Broker<S>)
    requires Quiet(b, c) && OfflineOk(b)
    ensures OfflineOk(c)
  {
    forall s | s in c.sessions && Live(c, s) && !c.sessions[s].connected ensures !Online(c, s) {
      assert Live(b, s);
    }
  }

  lemma QuietKeeps<S>(b: Broker<S>, c: Broker<S>)
    requires KeepAliveInv(b) && Quiet(b, c)
    ensures KeepAliveInv(c)
  {
    QuietKeepsWatch(b, c);
    QuietKeepsOffline(b, c);
  }

  lemma QuietTwice<S>(a: Broker<S>, b: Broker<S>, c: Broker<S>)
    requires Quiet(a, b) && Quiet(b, c)
    ensures Quiet(a, c)
  {
    forall s | s in a.sessions ensures SameStanding(a.sessions[s], c.sessions[s], c.clock) {
      assert SameStanding(a.sessions[s], b.sessions[s], b.clock);
    }
  }

  lemma WithIsQuiet<S>(b: Broker<S>, s: S, d: Session, clock: int)
    requires s in b.sessions && b.clock <= clock && SameStanding(b.sessions[s], d, clock)
    ensures Quiet(b, With(b, s, d).(clock := clock))
  {
  }

  lemma TouchIsQuiet<S>(b: Broker<S>, client: string, now: int)
    requires ActivityOk(b) && b.clock <= now
    ensures Quiet(b, Touch(b, client, now)) && Touch(b, client, now).clock == now
    ensures Known(Touch(b, client, now), client) == Known(b, client)
  {
    if Known(b, client) {
      var s := b.registry[client];
      WithIsQuiet(b, s, b.sessions[s].(lastActivity := now), now);
    }
  }

  lemma SendIsQuiet<S>(b: Broker<S>, s: S, p: Packet, now: int)
    requires s in b.sessions
    ensures Quiet(b, Send(b, s, p, now)) && Send(b, s, p, now).clock == b.clock
  {
    var d := b.sessions[s];
    WithIsQuiet(b, s, Store(d.(nextPacketId := d.NextId()), p, Delivered(p, d.NextId(), now + RETRY_INTERVAL_MS)), b.clock);
  }

  lemma {:induction false} RouteIsQuiet<S>(b: Broker<S>, p: Packet, ms: seq<Match<S>>, now: int)
    ensures Quiet(b, Route(b, p, ms, now).b) && Route(b, p, ms, now).b.clock == b.clock
    decreases |ms|
  {
    if ms != [] {
      var r, m := Route(b, p, ms[..|ms| - 1], now), ms[|ms| - 1];
      RouteIsQuiet(b, p, ms[..|ms| - 1], now);
      if Live(r.b, m.session) {
        var d := r.b.sessions[m.session];
        WithIsQuiet(r.b, m.session, d.(messageQueue := d.messageQueue + [WithQos(p, r.qos)]), r.b.clock);
        SendIsQuiet(r.b, m.session, WithQos(p, Min(r.qos, m.qos)), now);
      }
      QuietTwice(b, r.b, RouteOne(r.b, p, r.qos, m, now).b);
    }
  }

  lemma {:induction false} RouteHolds<S>(b: Broker<S>, p: Packet, ms: seq<Match<S>>, now: int)
    ensures Route(b, p, ms, now).b.held == b.held
    decreases |ms|
  {
    if ms != [] { RouteHolds(b, p, ms[..|ms| - 1], now); }
  }

  // ---------------------------------------------------------------- the storage part

  /** The session's maps are what its history says. */
  ghost predicate HistoryOk(d: Session)
  {
    CarriesPublishes(d.history) && Replay(d.history) == Flow(d.inflight, d.inflightAck, d.routed)
  }

  /** Retransmission entries are only ever made for PUBLISH packets. */
  ghost predicate RetransmitOk<S>(b: Broker<S>)
  {
    forall e | e in b.retransmit :: e.item.session in b.sessions && e.item.packetType == PUBLISH
  }

  ghost predicate StorageInv<S>(b: Broker<S>)
  {
    RetransmitOk(b) && forall s | s in b.sessions :: HistoryOk(b.sessions[s])
  }

  lemma HistoryStep(d: Session, d': Session, e: Event)
    requires HistoryOk(d) && d'.history == d.history + [e]
    requires (e.GotPublish? || e.Delivered?) ==> IsPublish(e.packet)
    requires After(Flow(d.inflight, d.inflightAck, d.routed), e) == Flow(d'.inflight, d'.inflightAck, d'.routed)
    ensures HistoryOk(d')
  {
    assert d'.history[..|d'.history| - 1] == d.history;
  }

  lemma ReleasedIsOk(d: Session, id: uint16)
    requires HistoryOk(d)
    ensures HistoryOk(Released(d, id))
    ensures id in d.inflight ==> IsPublish(d.inflight[id])
  {
    StoredPackets(d.history);
    HistoryStep(d, Released(d, id), GotPubrel(id));
  }

  lemma StoreIsOk(d: Session, p: Packet, e: Event)
    requires HistoryOk(d) && IsPublish(p) && (e == GotPublish(p) || (e.Delivered? && e.packet == p))
    ensures HistoryOk(Store(d, p, e))
  {
    HistoryStep(d, Store(d, p, e), e);
  }

  lemma PubackIsOk(d: Session, id: uint16)
    requires HistoryOk(d)
    ensures HistoryOk(Pubacked(d, id))
  {
    HistoryStep(d, Pubacked(d, id), GotPuback(id));
  }

  lemma PubrecIsOk(d: Session, id: uint16)
    requires HistoryOk(d)
    ensures HistoryOk(Pubrecced(d, id))
  {
    HistoryStep(d, Pubrecced(d, id), GotPubrec(id));
  }

  lemma PubcompIsOk(d: Session, id: uint16)
    requires HistoryOk(d)
    ensures HistoryOk(Pubcomped(d, id))
  {
    HistoryStep(d, Pubcomped(d, id), GotPubcomp(id));
  }

  lemma WithKeepsStorage<S>(b: Broker<S>, s: S, d: Session)
    requires StorageInv(b) && s in b.sessions && HistoryOk(d)
    ensures StorageInv(With(b, s, d))
  {
  }

  lemma TouchKeepsStorage<S>(b: Broker<S>, client: string, now: int)
    requires StorageInv(b)
    ensures StorageInv(Touch(b, client, now))
  {
    if Known(b, client) {
      var s := b.registry[client];
      assert HistoryOk(b.sessions[s].(lastActivity := now));
      WithKeepsStorage(b.(clock := now), s, b.sessions[s].(lastActivity := now));
    }
  }

  lemma SendKeepsStorage<S>(b: Broker<S>, s: S, p: Packet, now: int)
    requires StorageInv(b) && s in b.sessions && IsPublish(p)
    ensures StorageInv(Send(b, s, p, now))
  {
    if p.header.qos > 0 {
      var d := b.sessions[s];
      var d1 := d.(nextPacketId := d.NextId());
      assert HistoryOk(d1);
      var e := Delivered(p, d.NextId(), now + RETRY_INTERVAL_MS);
      StoreIsOk(d1, p, e);
      WithKeepsStorage(b, s, Store(d1, p, e));
      PushKeepsStorage(With(b, s, Store(d1, p, e)), s, p, d.NextId(), now + RETRY_INTERVAL_MS);
    }
  }

  lemma PushKeepsStorage<S>(b: Broker<S>, s: S, p: Packet, id: uint16, due: int)
    requires StorageInv(b) && s in b.sessions && IsPublish(p)
    ensures StorageInv(b.(retransmit := b.retransmit + multiset{Timed(due, Retry(id, p.header.ptype, s))}))
  {
  }

  lemma {:induction false} RouteKeepsStorage<S>(b: Broker<S>, p: Packet, ms: seq<Match<S>>, now: int)
    requires StorageInv(b) && IsPublish(p)
    ensures StorageInv(Route(b, p, ms, now).b)
    decreases |ms|
  {
    if ms != [] {
      var r, m := Route(b, p, ms[..|ms| - 1], now), ms[|ms| - 1];
      RouteKeepsStorage(b, p, ms[..|ms| - 1], now);
      if Live(r.b, m.session) {
        var d := r.b.sessions[m.session];
        if d.connected {
          SendKeepsStorage(r.b, m.session, WithQos(p, Min(r.qos, m.qos)), now);
        } else {
          assert HistoryOk(d.(messageQueue := d.messageQueue + [WithQos(p, r.qos)]));
          WithKeepsStorage(r.b, m.session, d.(messageQueue := d.messageQueue + [WithQos(p, r.qos)]));
        }
      }
    }
  }

  // ---------------------------------------------------------------- the quiet handlers

  lemma PublishIsQuiet<S>(b: Broker<S>, t: nat, client: string, p: Packet, ms: seq<Match<S>>, now: int)
    requires ActivityOk(b) && b.clock <= now
    ensures Quiet(b, HandlePublish(b, t, client, p, ms, now))
  {
    TouchIsQuiet(b, client, now);
    var c, c2 := Touch(b, client, now), HandlePublish(b, t, client, p, ms, now);
    RouteIsQuiet(c, p, ms, now);
    if p.header.qos >= 2 && Known(c, client) {
      var s := c.registry[client];
      WithIsQuiet(c, s, Store(c.sessions[s], p, GotPublish(p)), now);
    }
    QuietTwice(b, c, c2);
  }

  lemma PublishKeepsStorage<S>(b: Broker<S>, t: nat, client: string, p: Packet, ms: seq<Match<S>>, now: int)
    requires StorageInv(b) && IsPublish(p)
    ensures StorageInv(HandlePublish(b, t, client, p, ms, now))
  {
    TouchKeepsStorage(b, client, now);
    var c := Touch(b, client, now);
    RouteKeepsStorage(c, p, ms, now);
    if p.header.qos >= 2 && Known(c, client) {
      var s := c.registry[client];
      StoreIsOk(c.sessions[s], p, GotPublish(p));
      WithKeepsStorage(c, s, Store(c.sessions[s], p, GotPublish(p)));
    }
  }

  lemma PubrelIsQuiet<S>(b: Broker<S>, t: nat, client: string, id: uint16, ms: seq<Match<S>>, now: int)
    requires ActivityOk(b) && b.clock <= now
    ensures Quiet(b, HandlePubrel(b, t, client, id, ms, now))
  {
    TouchIsQuiet(b, client, now);
    if Known(b, client) {
      var c := Touch(b, client, now);
      var s := c.registry[client];
      var d := c.sessions[s];
      var taken := With(c, s, Released(d, id));
      WithIsQuiet(c, s, Released(d, id), now);
      QuietTwice(b, c, taken);
      if id in d.inflight {
        RouteIsQuiet(taken, d.inflight[id], ms, now);
        QuietTwice(b, taken, Route(taken, d.inflight[id], ms, now).b);
      }
    }
  }

  lemma PubrelKeepsStorage<S>(b: Broker<S>, t: nat, client: string, id: uint16, ms: seq<Match<S>>, now: int)
    requires StorageInv(b)
    ensures StorageInv(HandlePubrel(b, t, client, id, ms, now))
  {
    if Known(b, client) {
      TouchKeepsStorage(b, client, now);
      var c := Touch(b, client, now);
      var s := c.registry[client];
      var d := c.sessions[s];
      ReleasedIsOk(d, id);
      var taken := With(c, s, Released(d, id));
      WithKeepsStorage(c, s, Released(d, id));
      if id in d.inflight {
        RouteKeepsStorage(taken, d.inflight[id], ms, now);
      }
    }
  }

  lemma AcksAreQuiet<S>(b: Broker<S>, t: nat, client: string, id: uint16, now: int)
    requires ActivityOk(b) && b.clock <= now
    ensures Quiet(b, HandlePuback(b, client, id, now))
    ensures Quiet(b, HandlePubrec(b, t, client, id, now))
    ensures Quiet(b, HandlePubcomp(b, client, id, now))
  {
    TouchIsQuiet(b, client, now);
    var c := Touch(b, client, now);
    if Known(c, client) {
      var s := c.registry[client];
      var d := c.sessions[s];
      WithIsQuiet(c, s, Pubacked(d, id), now);
      WithIsQuiet(c, s, Pubrecced(d, id), now);
      WithIsQuiet(c, s, Pubcomped(d, id), now);
    }
    QuietTwice(b, c, HandlePuback(b, client, id, now));
    QuietTwice(b, c, HandlePubrec(b, t, client, id, now));
    QuietTwice(b, c, HandlePubcomp(b, client, id, now));
  }

  lemma AcksKeepStorage<S>(b: Broker<S>, t: nat, client: string, id: uint16, now: int)
    requires StorageInv(b)
    ensures StorageInv(HandlePuback(b, client, id, now))
    ensures StorageInv(HandlePubrec(b, t, client, id, now))
    ensures StorageInv(HandlePubcomp(b, client, id, now))
  {
    TouchKeepsStorage(b, client, now);
    var c := Touch(b, client, now);
    if Known(c, client) {
      var s := c.registry[client];
      PubackIsOk(c.sessions[s], id);
      PubrecIsOk(c.sessions[s], id);
      PubcompIsOk(c.sessions[s], id);
      WithKeepsStorage(c, s, Pubacked(c.sessions[s], id));
      WithKeepsStorage(c, s, Pubrecced(c.sessions[s], id));
      WithKeepsStorage(c, s, Pubcomped(c.sessions[s], id));
    }
  }

  lemma RetransmitIsQuiet<S>(b: Broker<S>, e: Timed<Retry<S>>, ms: seq<Match<S>>, now: int)
    requires e.item.session in b.sessions && b.clock <= now
    ensures Quiet(b, Retransmit(b, e, ms, now))
  {
    var p := StoredPacket(b.sessions[e.item.session], e.item.packetId, e.item.packetType);
    var c, p' := b.(clock := now), WithDup(p);
    RouteIsQuiet(c, p', ms, now);
    QuietTwice(b, c, Route(c, p', ms, now).b);
  }

  lemma RetransmitKeepsStorage<S>(b: Broker<S>, e: Timed<Retry<S>>, due: int, ms: seq<Match<S>>, now: int)
    requires StorageInv(b) && e in b.retransmit && CanRetransmit(b, e, due)
    ensures StorageInv(Retransmit(b, e, ms, now))
  {
    var d := b.sessions[e.item.session];
    StoredPackets(d.history);
    var p := StoredPacket(d, e.item.packetId, e.item.packetType);
    RouteKeepsStorage(b.(clock := now), WithDup(p), ms, now);
  }
}
