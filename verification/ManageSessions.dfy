/** The session manager: registry, keep-alive heap, retransmission heap and routing. */
module SessionManagers {
  import opened Packets
  import opened Wrappers
  import opened InflightHistory
  import opened Sessions
  import opened BrokerModel
  import opened BrokerInvariants
  import opened KeepAlive
  import opened BrokerRuns
  import opened JointRuns
  import opened MinHeaps
  import opened TopicHistory
  import opened TopicTrees
  import opened TreeSteps

  class ManageSessions {
    const topicTree: TopicTree
    const expiryHeap: MinHeap<ClientSession>
    const retransmitHeap: MinHeap<Retry<ClientSession>>
    var registry: map<string, ClientSession>
    var transports: set<nat>            // the session table
    var held: Option<nat>               // the transport whose packet is being handled
    var nextTransport: nat
    var sent: seq<Output>               // everything written to transports, oldest first
    ghost var created: set<ClientSession> // every session object ever registered
    ghost var clock: int                // the latest clock reading
    ghost var run: Joint<ClientSession> // every step so far, of broker and tree

    /** The state as a value. */
    ghost function View(): (b: Broker<ClientSession>)
      reads this, created, expiryHeap, retransmitHeap
      ensures b.sessions.Keys == created
    {
      Broker(registry, map s | s in created :: s.Data(), transports, nextTransport,
             multiset(expiryHeap.items), multiset(retransmitHeap.items), sent, held, clock)
    }

    ghost predicate Sound()
      reads this, expiryHeap, retransmitHeap
    {
      && expiryHeap.Valid() && retransmitHeap.Valid() && (expiryHeap as object) != (retransmitHeap as object)
      && forall c | c in registry :: registry[c] in created && registry[c].clientId == c
    }

    constructor (ghost now: int)
      ensures Sound() && View() == Initial(now) && topicTree.Valid() && topicTree.ops == [] && run == Start(now)
      ensures fresh(expiryHeap) && fresh(retransmitHeap) && fresh(topicTree) && fresh(topicTree.repr)
    {
      topicTree := new TopicTree();
      expiryHeap := new MinHeap();
      retransmitHeap := new MinHeap();
      registry, transports, nextTransport, sent, held := map[], {}, 0, [], None;
      created, clock, run := {}, now, Start(now);
    }

    /** The run has come to where the manager and its tree are. */
    ghost predicate Recorded()
      reads this, created, expiryHeap, retransmitHeap, topicTree
    {
      Ends(run, View(), topicTree.ops)
    }

    ghost method Record(r: Joint<ClientSession>)
      requires Sound() && Ends(r, View(), topicTree.ops)
      modifies this`run
      ensures Sound() && Recorded() && run == r && View() == old(View())
    {
      ghost var b := View();
      run := r;
      assert View() == b;
    }

    // -------------------------------------------------------------- the registry

    method SessionPresent(clientId: string) returns (cs: Option<ClientSession>)
      ensures cs == if clientId in registry then Some(registry[clientId]) else None
    {
      if clientId in registry { return Some(registry[clientId]); }
      return None;
    }

    method RemoveFromRegistry(clientId: string)
      requires Sound()
      modifies this`registry
      ensures Sound() && View() == old(View()).(registry := old(registry) - {clientId})
      ensures unchanged(topicTree) && unchanged(topicTree.repr)
    {
      if clientId in registry {
        registry := registry - {clientId};
      } else {
        assert registry - {clientId} == registry;
      }
    }

    method AddToRegistry(cs: ClientSession)
      requires Sound()
      modifies this`registry, this`created
      ensures Sound() && created == old(created) + {cs}
      ensures View() == Registered(old(View()), cs, cs.Data())
      ensures unchanged(topicTree) && unchanged(topicTree.repr)
    {
      ghost var b := View();
      registry := registry[cs.clientId := cs];
      Remember(cs);
      assert View().sessions == b.sessions[cs := cs.Data()];
    }

    ghost method Remember(cs: ClientSession)
      modifies this`created
      ensures created == old(created) + {cs}
    {
      created := created + {cs};
    }

    method UpdateActivity(clientId: string, now: int)
      requires Sound()
      modifies this`clock, created`lastActivity
      ensures Sound() && View() == Touch(old(View()), clientId, now)
      ensures forall s | s in created ::
                s.lastActivity == if clientId in registry && registry[clientId] == s then now else old(s.lastActivity)
      ensures unchanged(topicTree) && unchanged(topicTree.repr)
    {
      SetClock(now);
      HearClient(clientId, now);
    }

    method HearClient(clientId: string, now: int)
      requires Sound() && clock == now
      modifies created`lastActivity
      ensures Sound() && View() == Touch(old(View()), clientId, now)
      ensures forall s | s in created ::
                s.lastActivity == if clientId in registry && registry[clientId] == s then now else old(s.lastActivity)
    {
      ghost var b := View();
      var present := SessionPresent(clientId);
      if present.Some? {
        assert b.sessions[present.value] == present.value.Data();
        Hear(present.value, now);
      }
    }

    ghost method SetClock(now: int)
      requires Sound()
      modifies this`clock
      ensures Sound() && View() == old(View()).(clock := now)
      ensures unchanged(topicTree) && unchanged(topicTree.repr)
    {
      clock := now;
    }

    method Hear(cs: ClientSession, now: int)
      requires Sound() && cs in created
      modifies cs`lastActivity
      ensures Sound() && View() == With(old(View()), cs, old(cs.Data()).(lastActivity := now))
      ensures unchanged(topicTree) && unchanged(topicTree.repr)
    {
      ghost var b := View();
      cs.lastActivity := now;
      assert View().sessions == b.sessions[cs := cs.Data()];
    }

    /** The weak reference of a subscription or heap entry still leads to a session. */
    predicate Locks(s: ClientSession)
      reads this
    {
      s.clientId in registry && registry[s.clientId] == s
    }

    method ScheduleExpiry(cs: ClientSession)
      requires Sound() && cs in created
      modifies cs`expiryMs, expiryHeap
      ensures Sound() && View() == BrokerModel.ScheduleExpiry(old(View()), cs)
    {
      if cs.keepAlive == 0 { return; }
      var expiry := cs.lastActivity + cs.keepAlive * 1500;
      SetExpiry(cs, expiry);
      PushExpiry(Timed(expiry, cs));
    }

    method SetExpiry(cs: ClientSession, expiry: int)
      requires Sound() && cs in created
      modifies cs`expiryMs
      ensures Sound() && View() == With(old(View()), cs, old(cs.Data()).(expiryMs := expiry))
    {
      ghost var b := View();
      cs.expiryMs := expiry;
      assert View().sessions == b.sessions[cs := cs.Data()];
    }

    method PushExpiry(e: Timed<ClientSession>)
      requires Sound()
      modifies expiryHeap
      ensures Sound() && View() == old(View()).(expiry := old(View()).expiry + multiset{e})
    {
      ghost var b := View();
      expiryHeap.Push(e);
      assert View().sessions == b.sessions;
    }

    /** `addSession`: a connection has come in. */
    method AddSession() returns (t: nat)
      requires Sound()
      modifies this`transports, this`nextTransport
      ensures Sound() && t == old(nextTransport) && View() == Open(old(View()))
    {
      t := nextTransport;
      transports, nextTransport := transports + {t}, nextTransport + 1;
    }

    method ForceDisconnect(t: nat)
      requires Sound()
      modifies this`transports
      ensures Sound() && View() == Close(old(View()), t)
      ensures unchanged(topicTree) && unchanged(topicTree.repr)
    {
      transports := transports - {t};
    }

    /** A handler owns the network session whose packet it handles, so that it outlives its removal from
        the session table. */
    method Hold(t: nat)
      requires Sound()
      modifies this`held
      ensures Sound() && View() == BrokerModel.Hold(old(View()), t)
      ensures unchanged(topicTree) && unchanged(topicTree.repr)
    {
      held := Some(t);
    }

    method Release()
      requires Sound()
      modifies this`held
      ensures Sound() && View() == BrokerModel.Release(old(View()))
      ensures unchanged(topicTree) && unchanged(topicTree.repr)
    {
      held := None;
    }

    /** The weak reference of a session to its transport still leads to one. */
    predicate CanWrite(cs: ClientSession)
      reads this, cs
    {
      cs.transport.Some? && (cs.transport.value in transports || held == cs.transport)
    }

    /** `getNextTimeoutMs`: -1 exactly when nothing is scheduled, and otherwise the number of milliseconds
        until the least key of an entry, or 0 if that is past, which fits an `int`. A poll of that length does not sleep past the deadline of any
        registered, connected session with a live transport and a nonzero keep-alive. */
    method GetNextTimeoutMs(now: int) returns (timeout: int)
      requires Sound() && KeepAliveInv(View()) && clock <= now
      ensures timeout == -1 <==> expiryHeap.items == []
      ensures expiryHeap.items != [] ==>
                var e := expiryHeap.items[0];
                && e in View().expiry && (forall f | f in View().expiry :: e.key <= f.key)
                && timeout == if e.key <= now then 0 else e.key - now
      ensures timeout == -1 || 0 <= timeout <= LONGEST_WAIT
      ensures forall s | s in created && Monitored(View(), s) ::
                timeout != -1 && (timeout == 0 || now + timeout <= View().sessions[s].Deadline())
    {
      forall s | s in created && Monitored(View(), s)
        ensures expiryHeap.items != [] && expiryHeap.items[0].key <= View().sessions[s].Deadline()
      {
        TopIsEarly(s);
      }
      if expiryHeap.items == [] { return -1; }
      TopIsEarliest();
      var diff := expiryHeap.Top().key - now;
      if diff <= 0 { return 0; }
      return diff;
    }

    lemma TopIsEarliest()
      requires Sound() && expiryHeap.items != []
      ensures expiryHeap.items[0] in View().expiry
      ensures forall e | e in View().expiry :: expiryHeap.items[0].key <= e.key
    {
      assert expiryHeap.items[0] in multiset(expiryHeap.items);
      forall e | e in View().expiry ensures expiryHeap.items[0].key <= e.key {
        assert e in expiryHeap.items;
        var i :| 0 <= i < |expiryHeap.items| && expiryHeap.items[i] == e;
      }
    }

    lemma TopIsEarly(s: ClientSession)
      requires Sound() && AllWatched(View()) && s in created && Monitored(View(), s)
      ensures expiryHeap.items != [] && expiryHeap.items[0].key <= View().sessions[s].Deadline()
    {
      assert Watched(View(), s);
      var e :| e in View().expiry && e.item == s && e.key <= View().sessions[s].Deadline();
      assert e in expiryHeap.items;
      var i :| 0 <= i < |expiryHeap.items| && expiryHeap.items[i] == e;
    }

    // -------------------------------------------------------------- expiry

    /** `order` has been drained from the heap that was there in `b`, and sorted into these lists. */
    ghost predicate Draining(b: Broker<ClientSession>, order: seq<Timed<ClientSession>>, now: int,
                             toDisconnect: seq<ClientSession>, newEntries: seq<ClientSession>)
      reads this, created, expiryHeap, retransmitHeap
    {
      && Sound() && multiset(order) <= b.expiry && View() == b.(expiry := b.expiry - multiset(order))
      && (forall e | e in order :: e.item in b.sessions && e.key <= now && Live(b, e.item))
      && toDisconnect == Overdue(b, order, now) && newEntries == Stale(b, order, now)
    }

    /** The drain of the heap in `processExpiredSessions`. A due entry whose session has been freed is
        never popped, so the original loops on it for ever: that outcome is `diverges`. */
    method DrainExpired(now: int)
      returns (diverges: bool, toDisconnect: seq<ClientSession>, newEntries: seq<ClientSession>,
               ghost order: seq<Timed<ClientSession>>)
      requires Sound() && forall e | e in View().expiry :: e.item in created
      modifies expiryHeap
      ensures Draining(old(View()), order, now, toDisconnect, newEntries)
      ensures diverges ==> Hangs(old(View()), now)
      ensures !diverges ==> forall e | e in View().expiry :: e.key > now
    {
      ghost var b := View();
      toDisconnect, newEntries, order, diverges := [], [], [], false;
      while expiryHeap.items != []
        invariant Draining(b, order, now, toDisconnect, newEntries)
        decreases |expiryHeap.items|
      {
        var entry := expiryHeap.Top();
        TopIsThere(b, order, now, toDisconnect, newEntries);
        if entry.key > now {
          AllLater(now);
          return;
        }
        if !Locks(entry.item) {
          diverges := true;
          return;
        }
        toDisconnect, newEntries, order := DrainOne(b, order, now, toDisconnect, newEntries);
      }
    }

    lemma TopIsThere(b: Broker<ClientSession>, order: seq<Timed<ClientSession>>, now: int,
                     toDisconnect: seq<ClientSession>, newEntries: seq<ClientSession>)
      requires Draining(b, order, now, toDisconnect, newEntries) && expiryHeap.items != []
      requires forall e | e in b.expiry :: e.item in b.sessions
      ensures var e := expiryHeap.items[0];
              e in b.expiry - multiset(order) && e.item in created && (Locks(e.item) <==> Live(b, e.item))
    {
      assert expiryHeap.items[0] in multiset(expiryHeap.items);
      assert View().sessions[expiryHeap.items[0].item].clientId == expiryHeap.items[0].item.clientId;
    }

    /** One pass of the drain over a due entry whose session is alive. */
    method DrainOne(ghost b: Broker<ClientSession>, ghost order: seq<Timed<ClientSession>>, now: int,
                    toDisconnect: seq<ClientSession>, newEntries: seq<ClientSession>)
      returns (toDisconnect': seq<ClientSession>, newEntries': seq<ClientSession>,
               ghost order': seq<Timed<ClientSession>>)
      requires Draining(b, order, now, toDisconnect, newEntries) && expiryHeap.items != []
      requires expiryHeap.items[0].key <= now
      requires expiryHeap.items[0].item in created && Live(b, expiryHeap.items[0].item)
      requires expiryHeap.items[0] in b.expiry - multiset(order)
      modifies expiryHeap
      ensures Draining(b, order', now, toDisconnect', newEntries')
      ensures |expiryHeap.items| < |old(expiryHeap.items)|
    {
      var cs := expiryHeap.Top().item;
      toDisconnect', newEntries', order' := toDisconnect, newEntries, order + [expiryHeap.Top()];
      var recalculated := cs.lastActivity + cs.keepAlive * 1500;
      assert View().sessions[cs] == cs.Data() == b.sessions[cs];
      if recalculated > now {
        newEntries' := newEntries' + [cs];
      } else if cs.connected {
        toDisconnect' := toDisconnect' + [cs];
      }
      DrainStep(b, order, expiryHeap.Top(), now);
      PopExpiry();
    }

    lemma AllLater(now: int)
      requires Sound() && expiryHeap.items != [] && expiryHeap.items[0].key > now
      ensures forall e | e in View().expiry :: e.key > now
    {
      forall e | e in View().expiry ensures e.key > now {
        assert e in expiryHeap.items;
        var i :| 0 <= i < |expiryHeap.items| && expiryHeap.items[i] == e;
      }
    }

    method PopExpiry()
      requires Sound() && expiryHeap.items != []
      modifies expiryHeap
      ensures Sound() && |expiryHeap.items| == |old(expiryHeap.items)| - 1
      ensures View() == old(View()).(expiry := old(View()).expiry - multiset{old(expiryHeap.items)[0]})
    {
      ghost var b := View();
      expiryHeap.Pop();
      assert View().sessions == b.sessions;
    }

    method DisconnectSession(cs: ClientSession)
      requires Sound() && cs in created
      modifies this`registry, this`transports, cs`connected
      ensures Sound() && View() == Disconnect(old(View()), cs)
    {
      if cs.transport.Some? && cs.transport.value in transports {
        ForceDisconnect(cs.transport.value);
        if cs.cleanSession {
          RemoveFromRegistry(cs.clientId);
        } else {
          SetDisconnected(cs);
        }
      }
    }

    method SetDisconnected(cs: ClientSession)
      requires Sound() && cs in created
      modifies cs`connected
      ensures Sound() && View() == With(old(View()), cs, old(cs.Data()).(connected := false))
    {
      ghost var b := View();
      cs.connected := false;
      assert View().sessions == b.sessions[cs := cs.Data()];
    }

    method DisconnectSessions(ss: seq<ClientSession>)
      requires Sound() && forall s | s in ss :: s in created
      modifies this`registry, this`transports, created`connected
      ensures Sound() && View() == DisconnectAll(old(View()), ss)
    {
      ghost var b := View();
      for i := 0 to |ss|
        invariant Sound() && View() == DisconnectAll(b, ss[..i])
      {
        assert ss[..i + 1][..i] == ss[..i];
        DisconnectSession(ss[i]);
      }
      assert ss[..|ss|] == ss;
    }

    method ScheduleSessions(ss: seq<ClientSession>)
      requires Sound() && forall s | s in ss :: s in created
      modifies expiryHeap, created`expiryMs
      ensures Sound() && View() == ScheduleAll(old(View()), ss)
    {
      ghost var b := View();
      for i := 0 to |ss|
        invariant Sound() && View() == ScheduleAll(b, ss[..i])
      {
        assert ss[..i + 1][..i] == ss[..i];
        ScheduleExpiry(ss[i]);
      }
      assert ss[..|ss|] == ss;
    }

    /** `processExpiredSessions`. It hangs exactly when some due entry's session has been freed;
        otherwise it is the expiry step, for some order of the due entries, and keeps the invariants. */
    method ProcessExpiredSessions(now: int) returns (diverges: bool, ghost order: seq<Timed<ClientSession>>)
      requires Sound() && KeepAliveInv(View()) && clock <= now
      modifies this`registry, this`transports, this`clock, created`connected, created`expiryMs, expiryHeap
      ensures Sound()
      ensures diverges <==> Hangs(old(View()), now)
      ensures !diverges ==> DrainOrder(old(View()), order, now) && View() == Expire(old(View()), order, now)
      ensures !diverges ==> KeepAliveInv(View())
    {
      ghost var b := View();
      var toDisconnect, newEntries;
      diverges, toDisconnect, newEntries, order := DrainExpired(now);
      if diverges { return; }
      SetClock(now);
      assert DrainOrder(b, order, now);
      DrainedOnce(b, order, now);
      DisconnectSessions(toDisconnect);
      ScheduleSessions(newEntries);
      ExpireKeeps(b, order, now);
    }

    // -------------------------------------------------------------- routing

    /** `allocatePacketId` and `storeInflight` of `sendToClient`: the stored copy keeps its own id. */
    method Allocate(cs: ClientSession, packet: Packet, now: int) returns (id: uint16)
      requires Sound() && cs in created && packet.body.Publish?
      modifies cs
      ensures Sound() && id == old(cs.Data()).NextId()
      ensures View() == With(old(View()), cs, Store(old(cs.Data()).(nextPacketId := id), packet,
                                                    Delivered(packet, id, now + RETRY_INTERVAL_MS)))
    {
      ghost var b := View();
      id := cs.AllocatePacketId();
      KeepCopy(cs, packet, Delivered(packet, id, now + RETRY_INTERVAL_MS));
      assert View().sessions == b.sessions[cs := cs.Data()];
    }

    /** `storeInflight`, recorded in the session's history as the event that caused it. */
    method KeepCopy(cs: ClientSession, packet: Packet, ghost e: Event)
      requires packet.body.Publish?
      modifies cs`inflight, cs`history
      ensures cs.Data() == Store(old(cs.Data()), packet, e)
    {
      cs.StoreInflight(packet);
      cs.history := cs.history + [e];
    }

    method ScheduleRetransmission(packetId: uint16, ptype: byte, cs: ClientSession, now: int)
      requires Sound()
      modifies retransmitHeap
      ensures Sound()
      ensures View() == old(View()).(retransmit :=
                old(View()).retransmit + multiset{Timed(now + RETRY_INTERVAL_MS, Retry(packetId, ptype, cs))})
      ensures OnlyLater(old(retransmitHeap.items), now)
    {
      ghost var b := View();
      retransmitHeap.Push(Timed(now + RETRY_INTERVAL_MS, Retry(packetId, ptype, cs)));
      assert View().sessions == b.sessions;
    }

    /** Since the heap was `before`, only entries due 5 seconds after `now` have been pushed: no more
        entries are due, and a due top is still the top. */
    ghost predicate OnlyLater(before: seq<Timed<Retry<ClientSession>>>, now: int)
      reads this, retransmitHeap
    {
      && (forall due | due < now + RETRY_INTERVAL_MS :: CountDue(retransmitHeap.items, due) == CountDue(before, due))
      && (before != [] && before[0].key <= now ==> retransmitHeap.items != [] && retransmitHeap.items[0] == before[0])
    }

    method Write(o: Output)
      requires Sound()
      modifies this`sent
      ensures Sound() && View() == Emit(old(View()), o)
      ensures unchanged(topicTree) && unchanged(topicTree.repr)
    {
      sent := sent + [o];
    }

    method SendToClient(cs: ClientSession, packet: Packet, now: int)
      requires Sound() && cs in created
      requires if packet.header.ptype == PUBLISH then packet.body.Publish? else packet.body.Ack?
      modifies this`sent, cs, retransmitHeap
      ensures Sound() && View() == SendAny(old(View()), cs, packet, now)
      ensures OnlyLater(old(retransmitHeap.items), now)
    {
      if packet.header.ptype == PUBLISH {
        SendPublish(cs, packet, now);
      } else if CanWrite(cs) {
        Write(SentAck(cs.transport.value, packet.header.ptype, packet.body.packetId));
      }
    }

    /** Above QoS 0 the packet is given an id, stored and scheduled. */
    method KeepForRetry(cs: ClientSession, packet: Packet, now: int) returns (packetId: uint16)
      requires Sound() && cs in created && packet.body.Publish?
      modifies cs, retransmitHeap
      ensures Sound() && View() == Keep(old(View()), cs, packet, now) && cs.transport == old(cs.transport)
      ensures packetId == if packet.header.qos > 0 then old(cs.Data()).NextId() else 0
      ensures OnlyLater(old(retransmitHeap.items), now)
    {
      packetId := 0;
      if packet.header.qos > 0 {
        packetId := Allocate(cs, packet, now);
        ScheduleRetransmission(packetId, packet.header.ptype, cs, now);
      }
    }

    method SendPublish(cs: ClientSession, packet: Packet, now: int)
      requires Sound() && cs in created && packet.body.Publish?
      modifies this`sent, cs, retransmitHeap
      ensures Sound() && View() == Send(old(View()), cs, packet, now)
      ensures OnlyLater(old(retransmitHeap.items), now)
    {
      ghost var b := View();
      assert b.sessions[cs] == cs.Data();
      var packetId := KeepForRetry(cs, packet, now);
      WritePublish(cs, packet, packetId);
    }

    method WritePublish(cs: ClientSession, packet: Packet, packetId: uint16)
      requires Sound() && cs in created
      modifies this`sent
      ensures Sound()
      ensures View() == if Writable(old(View()), cs)
                        then Emit(old(View()), SentPublish(old(View()).sessions[cs].transport.value, packet, packetId))
                        else old(View())
    {
      assert View().sessions[cs] == cs.Data();
      if CanWrite(cs) {
        Write(SentPublish(cs.transport.value, packet, packetId));
      }
    }

    method QueueMessage(cs: ClientSession, packet: Packet)
      requires Sound() && cs in created
      modifies cs`messageQueue
      ensures Sound() && View() == With(old(View()), cs, old(cs.Data()).(messageQueue := old(cs.messageQueue) + [packet]))
    {
      ghost var b := View();
      cs.StoreMessage(packet);
      assert View().sessions == b.sessions[cs := cs.Data()];
    }

    /** One round of the loop of `routePacket`; `qos` is what the packet's header holds by now. */
    method RouteMatch(packet: Packet, qos: byte, sub: Subscription, now: int) returns (qos': byte)
      requires Sound() && Routable(packet)
      modifies this`sent, created, retransmitHeap
      ensures Sound()
      ensures Routed(View(), qos') == RouteOne(old(View()), packet, qos, Match(sub.session, sub.qos), now)
      ensures OnlyLater(old(retransmitHeap.items), now)
    {
      qos' := qos;
      var session := sub.session;
      if Locks(session) {
        assert View().sessions[session] == session.Data();
        if !session.connected {
          if qos > 0 {
            QueueMessage(session, packet.(header := packet.header.(qos := qos)));
          }
        } else {
          qos' := Min(qos, sub.qos);
          SendToClient(session, packet.(header := packet.header.(qos := qos')), now);
        }
      }
    }

    /** `routePacket` for a PUBLISH: the matches are what the topic tree returns, and the effect is the
        routing step over them. */
    method RoutePacket(packet: Packet, now: int)
      returns (ghost ms: seq<Match<ClientSession>>, ghost entries: seq<Entry<Subscription>>)
      requires Sound() && topicTree.Valid() && Routable(packet)
      modifies this`sent, created, retransmitHeap, topicTree, topicTree.repr
      ensures Sound() && topicTree.Valid() && topicTree.Grows()
      ensures Matched(old(topicTree.ops), topicTree.ops, packet.body.topic, entries, ms)
      ensures View() == Route(old(View()), packet, ms, now).b
      ensures OnlyLater(old(retransmitHeap.items), now)
    {
      var subs;
      subs, entries := MatchTopic(packet.body.topic);
      ms := MatchesOf(entries);
      RouteMatches(packet, subs, ms, now);
    }

    method MatchTopic(topic: string) returns (subs: seq<Subscription>, ghost entries: seq<Entry<Subscription>>)
      requires Sound() && topicTree.Valid()
      modifies topicTree, topicTree.repr
      ensures Sound() && View() == old(View()) && unchanged(retransmitHeap)
      ensures topicTree.Valid() && topicTree.Grows()
      ensures Lists(subs, entries) && Matched(old(topicTree.ops), topicTree.ops, topic, entries, MatchesOf(entries))
    {
      subs, entries := topicTree.Match(topic);
    }

    /** The loop of `routePacket`. */
    method RouteMatches(packet: Packet, subs: seq<Subscription>, ghost ms: seq<Match<ClientSession>>, now: int)
      requires Sound() && Routable(packet) && |ms| == |subs|
      requires forall i | 0 <= i < |subs| :: ms[i] == Match(subs[i].session, subs[i].qos)
      modifies this`sent, created, retransmitHeap
      ensures Sound() && View() == Route(old(View()), packet, ms, now).b
      ensures unchanged(topicTree) && unchanged(topicTree.repr)
      ensures OnlyLater(old(retransmitHeap.items), now)
    {
      ghost var b, before := View(), retransmitHeap.items;
      var qos := packet.header.qos;
      for i := 0 to |subs|
        invariant Sound() && Routed(View(), qos) == Route(b, packet, ms[..i], now)
        invariant OnlyLater(before, now)
      {
        assert ms[..i + 1][..i] == ms[..i];
        qos := RouteMatch(packet, qos, subs[i], now);
      }
      assert ms[..|ms|] == ms;
    }

    // -------------------------------------------------------------- subscriptions

    method CreateSubscription(topic: string, qos: byte, clientId: string)
      requires Sound() && topicTree.Valid() && qos < 3
      modifies topicTree, topicTree.repr
      ensures Sound() && View() == old(View()) && topicTree.Valid() && topicTree.Grows()
      ensures topicTree.ops == old(topicTree.ops) +
                if clientId in registry then SubscribeOp(Filter(topic, qos), clientId, registry[clientId]) else []
    {
      var cs := SessionPresent(clientId);
      if cs.Some? {
        SubscribeSession(topic, cs.value, qos);
      }
    }

    method RemoveSubscription(topic: string, clientId: string)
      requires Sound() && topicTree.Valid()
      modifies topicTree, topicTree.repr
      ensures Sound() && View() == old(View()) && topicTree.Valid() && topicTree.Grows()
      ensures topicTree.ops == old(topicTree.ops) +
                if clientId in registry then [Op.Unsubscribe(TopicNames.SplitTopic(topic), clientId)] else []
    {
      var cs := SessionPresent(clientId);
      if cs.Some? {
        UnsubscribeSession(topic, cs.value);
      }
    }

    method SubscribeSession(topic: string, cs: ClientSession, qos: byte)
      requires Sound() && topicTree.Valid() && qos < 3
      modifies topicTree, topicTree.repr
      ensures Sound() && View() == old(View()) && topicTree.Valid() && topicTree.Grows()
      ensures topicTree.ops == old(topicTree.ops) + SubscribeOp(Filter(topic, qos), cs.clientId, cs)
    {
      topicTree.Subscribe(topic, cs, qos);
    }

    method UnsubscribeSession(topic: string, cs: ClientSession)
      requires Sound() && topicTree.Valid()
      modifies topicTree, topicTree.repr
      ensures Sound() && View() == old(View()) && topicTree.Valid() && topicTree.Grows()
      ensures topicTree.ops == old(topicTree.ops) + [Op.Unsubscribe(TopicNames.SplitTopic(topic), cs.clientId)]
    {
      topicTree.Unsubscribe(topic, cs);
    }

    // -------------------------------------------------------------- retransmission

    /** Nothing can be retransmitted: the heap is empty, its top is not due, or the top's session or
        packet is gone. The last two block everything behind the top as well, and a freed session's
        entry does so for good (`BlockedForever`). */
    ghost predicate Stopped(due: int)
      reads this, created, expiryHeap, retransmitHeap
    {
      retransmitHeap.items == [] || !CanRetransmit(View(), retransmitHeap.items[0], due)
    }

    method PopRetransmission(ghost due: int)
      requires Sound() && retransmitHeap.items != [] && retransmitHeap.items[0].key <= due
      modifies retransmitHeap
      ensures Sound() && unchanged(topicTree) && unchanged(topicTree.repr)
      ensures View() == old(View()).(retransmit := old(View()).retransmit - multiset{old(retransmitHeap.items)[0]})
      ensures CountDue(retransmitHeap.items, due) == CountDue(old(retransmitHeap.items), due) - 1
    {
      ghost var b := View();
      retransmitHeap.Pop();
      assert View().sessions == b.sessions;
    }

    /** The sending half of a pass: the stored PUBLISH is routed afresh with its DUP flag set; any other
        packet is acknowledged again on the session's own transport. */
    method Resend(cs: ClientSession, packetId: uint16, ptype: byte, packet: Packet, now: int)
      returns (ghost ms: seq<Match<ClientSession>>, ghost entries: seq<Entry<Subscription>>)
      requires Sound() && topicTree.Valid() && cs in created
      requires ptype == PUBLISH ==> Routable(packet)
      modifies this`sent, created, retransmitHeap, topicTree, topicTree.repr
      ensures Sound() && topicTree.Valid() && topicTree.Grows()
      ensures View() == Resent(old(View()), Retry(packetId, ptype, cs), packet, ms, now)
      ensures Rematched(old(topicTree.ops), topicTree.ops, Retry(packetId, ptype, cs), packet, entries, ms)
      ensures OnlyLater(old(retransmitHeap.items), now)
    {
      ms, entries := [], [];
      if ptype == PUBLISH {
        ms, entries := RoutePacket(WithDup(packet), now);
      } else if CanWrite(cs) {
        Write(SentAck(cs.transport.value, packet.header.ptype, packetId));
      }
    }

    method ResendAt(cs: ClientSession, packetId: uint16, ptype: byte, packet: Packet, now: int)
      returns (ghost ms: seq<Match<ClientSession>>, ghost entries: seq<Entry<Subscription>>)
      requires Sound() && topicTree.Valid() && cs in created
      requires ptype == PUBLISH ==> Routable(packet)
      modifies this`sent, this`clock, created, retransmitHeap, topicTree, topicTree.repr
      ensures Sound() && topicTree.Valid() && topicTree.Grows()
      ensures View() == Resent(old(View()).(clock := now), Retry(packetId, ptype, cs), packet, ms, now)
      ensures Rematched(old(topicTree.ops), topicTree.ops, Retry(packetId, ptype, cs), packet, entries, ms)
      ensures OnlyLater(old(retransmitHeap.items), now)
    {
      SetClock(now);
      ms, entries := Resend(cs, packetId, ptype, packet, now);
    }

    /** The top's packet, if the original gets as far as resending it. */
    function TopPacket(due: int): (packet: Option<Packet>)
      requires Sound() && retransmitHeap.items != []
      reads this, created, expiryHeap, retransmitHeap
      ensures packet.None? <==> Stopped(due)
      ensures packet.Some? ==>
                var e := retransmitHeap.items[0];
                && e.item.session in created
                && packet.value == StoredPacket(View().sessions[e.item.session], e.item.packetId, e.item.packetType)
    {
      var entry := retransmitHeap.Top();
      var cs := entry.item.session;
      if entry.key > due || !Locks(cs) then None
      else
        assert View().sessions[cs] == cs.Data();
        var stored := cs.GetPacket(entry.item.packetId, entry.item.packetType);
        if stored.pktLen == 0 then None else Some(stored)
    }

    /** One pass: resend the top's packet, then pop. What is popped is the entry that was read, since
        sending pushes only entries that are due later. */
    method RetransmitTop(packet: Packet, due: int, now: int)
      returns (ghost ms: seq<Match<ClientSession>>, ghost entries: seq<Entry<Subscription>>)
      requires Sound() && topicTree.Valid() && retransmitHeap.items != [] && clock <= now && due <= now
      requires var e := retransmitHeap.items[0];
               && e.key <= due && e.item.session in created
               && packet == StoredPacket(View().sessions[e.item.session], e.item.packetId, e.item.packetType)
               && (e.item.packetType == PUBLISH ==> Routable(packet))
      modifies this`sent, this`clock, created, retransmitHeap, topicTree, topicTree.repr
      ensures Sound() && topicTree.Valid() && topicTree.Grows()
      ensures View() == Retransmit(old(View()), old(retransmitHeap.items)[0], ms, now)
      ensures Rematched(old(topicTree.ops), topicTree.ops, old(retransmitHeap.items)[0].item, packet, entries, ms)
      ensures CountDue(retransmitHeap.items, due) < CountDue(old(retransmitHeap.items), due)
    {
      var entry := retransmitHeap.Top();
      ms, entries := ResendAt(entry.item.session, entry.item.packetId, entry.item.packetType, packet, now);
      assert CountDue(retransmitHeap.items, due) == CountDue(old(retransmitHeap.items), due);
      PopRetransmission(due);
    }

    /** The drain that began in `b` has come this far and is in the last of its states. */
    ghost predicate Passed(b: Broker<ClientSession>, d: Progress, due: int)
      reads this, created, expiryHeap, retransmitHeap, topicTree, topicTree.repr
    {
      && Sound() && topicTree.Valid() && Drain(d.states, d.passes, due) && Searched(d)
      && d.states[0] == b && View() == d.states[|d.passes|] && topicTree.ops == d.trees[|d.passes|]
    }

    lemma TopIsFirst()
      requires Sound() && retransmitHeap.items != []
      ensures retransmitHeap.items[0] in View().retransmit
      ensures forall e | e in View().retransmit :: retransmitHeap.items[0].key <= e.key
    {
      assert retransmitHeap.items[0] in multiset(retransmitHeap.items);
      forall e | e in View().retransmit ensures retransmitHeap.items[0].key <= e.key {
        assert e in retransmitHeap.items;
        var i :| 0 <= i < |retransmitHeap.items| && retransmitHeap.items[i] == e;
      }
    }

    method MakePass(packet: Packet, ghost b: Broker<ClientSession>, ghost d: Progress, due: int, now: int)
      returns (ghost d': Progress)
      requires Passed(b, d, due) && retransmitHeap.items != [] && clock <= now && due <= now && !Stopped(due)
      requires var e := retransmitHeap.items[0];
               e.item.session in created
               && packet == StoredPacket(View().sessions[e.item.session], e.item.packetId, e.item.packetType)
      modifies this`sent, this`clock, created, retransmitHeap, topicTree, topicTree.repr
      ensures Passed(b, d', due) && |d'.passes| == |d.passes| + 1 && clock == now && d'.trees[0] == d.trees[0]
      ensures topicTree.Grows()
      ensures CountDue(retransmitHeap.items, due) < CountDue(old(retransmitHeap.items), due)
    {
      ghost var c, entry, ms, entries := View(), retransmitHeap.items[0], [], [];
      TopIsFirst();
      assert c in d.states;
      StoredToResend(c, entry, due);
      ms, entries := RetransmitTop(packet, due, now);
      DrainAdvances(d, due, Pass(entry, ms, now), c, View());
      OneMoreSearch(d, Pass(entry, ms, now), View(), topicTree.ops, entries);
      d' := d.With(Pass(entry, ms, now), View(), topicTree.ops, entries);
    }

    /** The loop of `processRetransmissions`. It terminates although routing pushes into the heap being
        drained, since the number of entries due at `due` falls with every pass. */
    method DrainRetransmissions(ghost b: Broker<ClientSession>, ghost start: Progress, due: int, readings: nat -> int)
      returns (ghost d: Progress)
      requires Passed(b, start, due) && start.passes == [] && clock <= due && Ticks(due, readings)
      modifies this`sent, this`clock, created, retransmitHeap, topicTree, topicTree.repr
      ensures Passed(b, d, due) && Stopped(due) && |d.passes| <= CountDue(old(retransmitHeap.items), due)
      ensures topicTree.Grows() && d.trees[0] == start.trees[0]
    {
      d := start;
      var n: nat := 0;
      while retransmitHeap.items != []
        invariant Passed(b, d, due) && clock <= readings(n) && d.trees[0] == start.trees[0]
        invariant topicTree.Grows()
        invariant n == |d.passes| && n + CountDue(retransmitHeap.items, due) <= CountDue(old(retransmitHeap.items), due)
        decreases CountDue(retransmitHeap.items, due)
      {
        var packet := TopPacket(due);
        if packet == None { break; }
        d := MakePass(packet.value, b, d, due, readings(n));
        n := n + 1;
      }
    }

    /** `processRetransmissions`, with the clock readings that its passes take: it makes passes, each
        over a top entry that is due and can be sent, until nothing can be retransmitted. */
    method ProcessRetransmissions(due: int, readings: nat -> int) returns (ghost d: Progress)
      requires Sound() && topicTree.Valid() && Inv(View()) && clock <= due && Ticks(due, readings)
      modifies this`sent, this`clock, created, retransmitHeap, topicTree, topicTree.repr
      ensures Passed(old(View()), d, due) && Stopped(due) && |d.passes| <= CountDue(old(retransmitHeap.items), due)
      ensures topicTree.Grows() && d.trees[0] == old(topicTree.ops)
    {
      d := DrainRetransmissions(View(), Progress([View()], [], [topicTree.ops], []), due, readings);
    }
  }

  /** How far a drain has come: the states of the broker it has gone through, the passes between them,
      the tree's history at each state, and what each pass has found in the tree. */
  datatype Progress = Progress(
    states: seq<Broker<ClientSession>>, passes: seq<Pass<ClientSession>>,
    trees: seq<seq<Op<Subscription>>>, found: seq<seq<Entry<Subscription>>>)
  {
    ghost function With(p: Pass<ClientSession>, c: Broker<ClientSession>, ops: seq<Op<Subscription>>,
                        entries: seq<Entry<Subscription>>): Progress
    {
      Progress(states + [c], passes + [p], trees + [ops], found + [entries])
    }
  }

  /** Every pass has routed to what the tree returned at its turn. */
  ghost predicate Searched(d: Progress)
  {
    && |d.states| == |d.trees| == |d.passes| + 1 && |d.found| == |d.passes|
    && forall i {:trigger d.passes[i]} | 0 <= i < |d.passes| ::
         PassSearched(d.states[i], d.passes[i].entry.item, d.trees[i], d.trees[i + 1], d.found[i], d.passes[i].matches)
  }

  lemma OneMoreSearch(d: Progress, p: Pass<ClientSession>, c: Broker<ClientSession>, ops: seq<Op<Subscription>>,
                      entries: seq<Entry<Subscription>>)
    requires Searched(d) && PassSearched(d.states[|d.passes|], p.entry.item, d.trees[|d.passes|], ops, entries, p.matches)
    ensures var d' := d.With(p, c, ops, entries);
            && Searched(d') && d'.states[0] == d.states[0]
            && d'.states[|d'.passes|] == c && d'.trees[|d'.passes|] == ops
  {
  }

  lemma DrainAdvances(d: Progress, due: int, p: Pass<ClientSession>, b: Broker<ClientSession>, c: Broker<ClientSession>)
    requires Drain(d.states, d.passes, due) && b == d.states[|d.passes|]
    requires b.clock <= p.now && due <= p.now && CanRetransmit(b, p.entry, due)
    requires p.entry in b.retransmit && forall e | e in b.retransmit :: p.entry.key <= e.key
    requires c == Retransmit(b, p.entry, p.matches, p.now)
    ensures Drain(d.states + [c], d.passes + [p], due) && c.clock == p.now
  {
    assert b in d.states;
    PassKeepsInv(b, p, due);
    OneMorePass(d.states, d.passes, due, p, c);
    RetransmitTicks(b, p.entry, p.matches, p.now);
  }

  /** Clock readings do not go back. */
  ghost predicate Ticks(due: int, readings: nat -> int)
  {
    due <= readings(0) && forall i: nat, j: nat | i <= j :: readings(i) <= readings(j)
  }

  lemma StoredToResend<S>(b: Broker<S>, e: Timed<Retry<S>>, due: int)
    requires StorageInv(b) && CanRetransmit(b, e, due)
    ensures e.item.packetType == PUBLISH ==>
              Routable(StoredPacket(b.sessions[e.item.session], e.item.packetId, e.item.packetType))
  {
    assert HistoryOk(b.sessions[e.item.session]);
    StoredPackets(b.sessions[e.item.session].history);
  }

  lemma RetransmitTicks<S>(b: Broker<S>, e: Timed<Retry<S>>, ms: seq<Match<S>>, now: int)
    requires e.item.session in b.sessions
    ensures Retransmit(b, e, ms, now).clock == now
  {
    var p := StoredPacket(b.sessions[e.item.session], e.item.packetId, e.item.packetType);
    RouteIsQuiet(b.(clock := now), WithDup(p), ms, now);
  }

  lemma DrainStep<S>(b: Broker<S>, order: seq<Timed<S>>, e: Timed<S>, now: int)
    requires multiset(order) <= b.expiry && e in b.expiry - multiset(order)
    requires e.item in b.sessions && forall x | x in order :: x.item in b.sessions
    ensures multiset(order + [e]) <= b.expiry
    ensures b.expiry - multiset(order) - multiset{e} == b.expiry - multiset(order + [e])
    ensures Overdue(b, order + [e], now)
         == Overdue(b, order, now) + if b.sessions[e.item].Deadline() <= now && b.sessions[e.item].connected then [e.item] else []
    ensures Stale(b, order + [e], now)
         == Stale(b, order, now) + if b.sessions[e.item].Deadline() > now then [e.item] else []
  {
    assert (order + [e])[..|order|] == order;
    assert multiset(order + [e]) == multiset(order) + multiset{e};
  }
}
