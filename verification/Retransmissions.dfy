/** What the retransmission pass finds and routes, over every run of the broker.

    An entry of the retransmission heap names a packet id, and the pass looks that id up in the map
    that holds the session's own unreleased QoS 2 packets too.
 */
module Retransmissions {
  import opened Packets
  import opened Wrappers
  import opened InflightHistory
  import opened Sessions
  import opened BrokerModel
  import opened BrokerInvariants
  import opened KeepAlive
  import opened BrokerRuns
  import opened Effects
  import opened ReachableSessions
  import opened Routing
  import opened SessionFates

  // ---------------------------------------------------------------- every entry stems from a delivery

  /** Event `k` is the delivery for which the entry was pushed. */
  ghost predicate DeliveryOf<S>(h: seq<Event>, e: Timed<Retry<S>>, k: nat)
  {
    k < |h| && h[k].Delivered? && h[k].retryId == e.item.packetId && h[k].due == e.key
  }

  ghost predicate HasDelivery<S>(h: seq<Event>, e: Timed<Retry<S>>)
  {
    exists k: nat :: DeliveryOf(h, e, k)
  }

  ghost predicate EntriesDelivered<S>(b: Broker<S>)
  {
    forall e | e in b.retransmit ::
      e.item.session in b.sessions && HasDelivery(b.sessions[e.item.session].history, e)
  }

  /** No session has disappeared and none has forgotten an event. */
  ghost predicate Remembers<S>(b: Broker<S>, c: Broker<S>)
  {
    forall s | s in b.sessions :: s in c.sessions && b.sessions[s].history <= c.sessions[s].history
  }

  lemma StillDelivered<S>(b: Broker<S>, c: Broker<S>, e: Timed<Retry<S>>)
    requires Remembers(b, c) && e.item.session in b.sessions
    requires HasDelivery(b.sessions[e.item.session].history, e)
    ensures e.item.session in c.sessions && HasDelivery(c.sessions[e.item.session].history, e)
  {
    var h, h2 := b.sessions[e.item.session].history, c.sessions[e.item.session].history;
    var k: nat :| DeliveryOf(h, e, k);
    assert h2[k] == h[k];
    assert DeliveryOf(h2, e, k);
  }

  lemma NoNewEntries<S>(b: Broker<S>, c: Broker<S>)
    requires EntriesDelivered(b) && Remembers(b, c) && forall e | e in c.retransmit :: e in b.retransmit
    ensures EntriesDelivered(c)
  {
    forall e | e in c.retransmit
      ensures e.item.session in c.sessions && HasDelivery(c.sessions[e.item.session].history, e)
    {
      StillDelivered(b, c, e);
    }
  }

  lemma SendDelivered<S>(b: Broker<S>, s: S, p: Packet, now: int)
    requires EntriesDelivered(b) && s in b.sessions
    ensures EntriesDelivered(Send(b, s, p, now))
  {
    var c := Send(b, s, p, now);
    if p.header.qos == 0 {
      NoNewEntries(b, c);
    } else {
      var d := b.sessions[s];
      var id, due := d.NextId(), now + RETRY_INTERVAL_MS;
      var pushed := Timed(due, Retry(id, p.header.ptype, s));
      assert c.sessions[s].history == d.history + [Delivered(p, id, due)];
      assert DeliveryOf(c.sessions[s].history, pushed, |d.history|);
      forall e | e in c.retransmit
        ensures e.item.session in c.sessions && HasDelivery(c.sessions[e.item.session].history, e)
      {
        if e != pushed { StillDelivered(b, c, e); }
      }
    }
  }

  lemma {:induction false} RouteDelivered<S>(b: Broker<S>, p: Packet, ms: seq<Match<S>>, now: int)
    requires EntriesDelivered(b)
    ensures EntriesDelivered(Route(b, p, ms, now).b)
    decreases |ms|
  {
    if ms != [] {
      var r, m := Route(b, p, ms[..|ms| - 1], now), ms[|ms| - 1];
      RouteDelivered(b, p, ms[..|ms| - 1], now);
      if Live(r.b, m.session) {
        if r.b.sessions[m.session].connected {
          SendDelivered(r.b, m.session, WithQos(p, Min(r.qos, m.qos)), now);
        } else {
          NoNewEntries(r.b, RouteOne(r.b, p, r.qos, m, now).b);
        }
      }
    }
  }

  lemma StepRemembers<S>(b: Broker<S>, step: Step<S>)
    requires RegistryOk(b) && ExpiryOk(b) && Enabled(b, step)
    ensures Remembers(b, Next(b, step))
  {
    forall s | s in b.sessions
      ensures s in Next(b, step).sessions && b.sessions[s].history <= Next(b, step).sessions[s].history
    {
      StepRecords(b, step, s);
      ContinuesIsPrefix(b.sessions[s].history, EventsOf(b, step, s), Next(b, step).sessions[s].history);
    }
  }

  lemma TouchDelivered<S>(b: Broker<S>, client: string, now: int)
    requires EntriesDelivered(b)
    ensures EntriesDelivered(Touch(b, client, now))
  {
    NoNewEntries(b, Touch(b, client, now));
  }

  lemma EmitDelivered<S>(b: Broker<S>, o: Output)
    requires EntriesDelivered(b)
    ensures EntriesDelivered(Emit(b, o))
  {
    NoNewEntries(b, Emit(b, o));
  }

  lemma StoreDelivered<S>(b: Broker<S>, s: S, p: Packet)
    requires EntriesDelivered(b) && s in b.sessions
    ensures EntriesDelivered(With(b, s, Store(b.sessions[s], p, GotPublish(p))))
  {
    NoNewEntries(b, With(b, s, Store(b.sessions[s], p, GotPublish(p))));
  }

  lemma PublishDelivered<S>(b: Broker<S>, t: nat, client: string, p: Packet, ms: seq<Match<S>>, now: int)
    requires EntriesDelivered(b) && RegistryOk(b)
    ensures EntriesDelivered(HandlePublish(b, t, client, p, ms, now))
  {
    var c := Touch(b, client, now);
    TouchDelivered(b, client, now);
    if p.header.qos < 2 {
      RouteDelivered(c, p, ms, now);
      EmitDelivered(Route(c, p, ms, now).b, SentAck(t, PUBACK, IdOf(p)));
    } else if Known(c, client) {
      StoreDelivered(c, c.registry[client], p);
      EmitDelivered(With(c, c.registry[client], Store(c.sessions[c.registry[client]], p, GotPublish(p))),
                    SentAck(t, PUBREC, IdOf(p)));
    }
  }

  lemma PubrelDelivered<S>(b: Broker<S>, t: nat, client: string, id: uint16, ms: seq<Match<S>>, now: int)
    requires EntriesDelivered(b) && RegistryOk(b)
    ensures EntriesDelivered(HandlePubrel(b, t, client, id, ms, now))
  {
    if Known(b, client) {
      var c, s := Touch(b, client, now), b.registry[client];
      TouchDelivered(b, client, now);
      var d := c.sessions[s];
      var taken := With(c, s, Released(d, id));
      NoNewEntries(c, taken);
      if id in d.inflight { RouteDelivered(taken, d.inflight[id], ms, now); }
      EmitDelivered(ReleaseAndRoute(c, s, id, ms, now), SentAck(t, PUBCOMP, id));
    }
  }

  lemma RetransmitDelivered<S>(b: Broker<S>, e: Timed<Retry<S>>, ms: seq<Match<S>>, now: int)
    requires EntriesDelivered(b) && e.item.session in b.sessions
    ensures EntriesDelivered(Retransmit(b, e, ms, now))
  {
    var c := b.(clock := now);
    var p := StoredPacket(b.sessions[e.item.session], e.item.packetId, e.item.packetType);
    NoNewEntries(b, c);
    RouteDelivered(c, WithDup(p), ms, now);
    var r := Resent(c, e.item, p, ms, now);
    if e.item.packetType != PUBLISH { NoNewEntries(c, r); }
    NoNewEntries(r, Retransmit(b, e, ms, now));
  }

  lemma OthersPushNothing<S>(b: Broker<S>, step: Step<S>)
    requires RegistryOk(b) && ExpiryOk(b) && Enabled(b, step)
    requires !step.DoPublish? && !step.DoPubrel? && !step.DoRetransmit?
    ensures Next(b, step).retransmit == b.retransmit
  {
    match step
    case DoConnect(t, r, newcomer, order, now) => ConnectPushesNothing(Hold(b, t), t, r, newcomer, order, now);
    case DoExpire(order, now) => ExpirePhases(b, order, now);
    case DoPuback(client, id, now) => AcksPushNothing(b, 0, client, id, now);
    case DoPubrec(t, client, id, now) => AcksPushNothing(b, t, client, id, now);
    case DoPubcomp(client, id, now) => AcksPushNothing(b, 0, client, id, now);
    case _ =>
  }

  lemma AcksPushNothing<S>(b: Broker<S>, t: nat, client: string, id: uint16, now: int)
    ensures HandlePuback(b, client, id, now).retransmit == b.retransmit
    ensures HandlePubrec(b, t, client, id, now).retransmit == b.retransmit
    ensures HandlePubcomp(b, client, id, now).retransmit == b.retransmit
  {
  }

  lemma ConnectPushesNothing<S>(b: Broker<S>, t: nat, r: ConnectRequest, newcomer: S, order: ResendOrder, now: int)
    requires RegistryOk(b)
    ensures HandleConnect(b, t, r, newcomer, order, now).retransmit == b.retransmit
  {
    TakeOverFades(b.(clock := now), r);
  }

  lemma StepKeepsDelivered<S>(b: Broker<S>, step: Step<S>)
    requires RegistryOk(b) && ExpiryOk(b) && EntriesDelivered(b) && Enabled(b, step)
    ensures EntriesDelivered(Next(b, step))
  {
    match step
    case DoPublish(t, client, p, ms, now) => PublishDelivered(Hold(b, t), t, client, p, ms, now);
    case DoPubrel(t, client, id, ms, now) => PubrelDelivered(Hold(b, t), t, client, id, ms, now);
    case DoRetransmit(e, _, ms, now) => RetransmitDelivered(b, e, ms, now);
    case _ =>
      StepRemembers(b, step);
      OthersPushNothing(b, step);
      NoNewEntries(b, Next(b, step));
  }

  lemma ExecutionStepKeepsDelivered<S>(states: seq<Broker<S>>, steps: seq<Step<S>>, i: nat)
    requires Execution(states, steps) && i < |steps| && EntriesDelivered(states[i])
    ensures EntriesDelivered(states[i + 1])
  {
    ReachableStates(states, steps, i);
    StepKeepsDelivered(states[i], steps[i]);
  }

  /** In every reachable state, every retransmission entry stems from a delivery to its session. */
  lemma {:induction false} EveryEntryWasDelivered<S>(states: seq<Broker<S>>, steps: seq<Step<S>>, i: nat)
    requires Execution(states, steps) && i < |states|
    ensures EntriesDelivered(states[i])
    decreases i
  {
    if i > 0 {
      EveryEntryWasDelivered(states, steps, i - 1);
      ExecutionStepKeepsDelivered(states, steps, i - 1);
      assert i - 1 + 1 == i;
    }
  }

  // ---------------------------------------------------------------- what a pass finds

  /** Over every run, of every entry: it stems from a delivery `k`. Once due, with its session alive,
      the pass resends something exactly when some event holds the entry's id, and stops otherwise;
      what it resends is that event's packet. That is the delivered packet exactly when the delivery
      itself holds the id, which takes that the packet's own id is the one allocated for the delivery,
      was free then, and has not been removed since; in every other case it is another packet. */
  lemma PassFinds<S>(states: seq<Broker<S>>, steps: seq<Step<S>>, i: nat, e: Timed<Retry<S>>)
    requires Execution(states, steps) && i < |states| && e in states[i].retransmit
    ensures e.item.session in states[i].sessions
    ensures var d, id := states[i].sessions[e.item.session], e.item.packetId;
            && HasDelivery(d.history, e)
            && (forall due :: CanRetransmit(states[i], e, due)
                   <==> e.key <= due && Live(states[i], e.item.session) && exists j: nat :: Holder(d.history, id, j))
            && (forall j: nat | Holder(d.history, id, j) :: StoredPacket(d, id, e.item.packetType) == d.history[j].packet)
            && (forall k: nat | DeliveryOf(d.history, e, k) ::
                  (Holder(d.history, id, k) <==> IdOf(d.history[k].packet) == id && Accepted(d.history, k)
                                                  && !RemovedBetween(d.history, id, k, |d.history|)))
  {
    ReachableStates(states, steps, i);
    EveryEntryWasDelivered(states, steps, i);
    var d, id := states[i].sessions[e.item.session], e.item.packetId;
    var h := d.history;
    assert HistoryOk(d);
    StoredPackets(h);
    HeldIffHolder(h, id);
    forall k: nat | DeliveryOf(h, e, k)
      ensures Holder(h, id, k)
         <==> IdOf(h[k].packet) == id && Accepted(h, k) && !RemovedBetween(h, id, k, |h|)
    {
      assert h[..|h|] == h;
      AcceptedHolds(h, |h|, id, k);
    }
  }

  // ---------------------------------------------------------------- which steps send a stored packet

  /** The step sends the packet that session `s` holds under id `n`: a PUBREL and a retransmission pass
      route it, a CONNECT that resumes the session over its own transport writes it there. */
  ghost predicate SendsStored<S>(b: Broker<S>, step: Step<S>, s: S, n: uint16)
  {
    && s in b.sessions && n in b.sessions[s].inflight
    && match step
       case DoPubrel(_, client, id, _, _) => client in b.registry && b.registry[client] == s && id == n
       case DoRetransmit(e, _, _, _) => e.item.session == s && e.item.packetId == n
       case DoConnect(t, r, _, _, _) => ResumesOver(b, t, r) && b.registry[r.clientId] == s
       case _ => false
  }

  /** The step sends what event `j` of the session's history stored. */
  ghost predicate SendsEvent<S>(b: Broker<S>, step: Step<S>, s: S, j: nat)
  {
    && s in b.sessions && j < |b.sessions[s].history|
    && var e := b.sessions[s].history[j];
       (e.GotPublish? || e.Delivered?) && SendsStored(b, step, s, IdOf(e.packet))
       && Holder(b.sessions[s].history, IdOf(e.packet), j)
  }

  lemma EventIsHeldPacket<S>(b: Broker<S>, step: Step<S>, s: S, j: nat)
    requires StorageInv(b) && SendsEvent(b, step, s, j)
    ensures var h := b.sessions[s].history; b.sessions[s].inflight[IdOf(h[j].packet)] == h[j].packet
  {
    assert HistoryOk(b.sessions[s]);
    HeldIffHolder(b.sessions[s].history, IdOf(b.sessions[s].history[j].packet));
  }

  /** What such a step does: a PUBREL routes the packet as it is, a pass routes it with its DUP flag set,
      and a CONNECT writes it with its DUP flag set. */
  lemma SendsStoredMeans<S>(b: Broker<S>, step: Step<S>, s: S, n: uint16)
    requires Inv(b) && Enabled(b, step) && SendsStored(b, step, s, n)
    ensures var p := b.sessions[s].inflight[n];
            match step
            case DoPubrel(t, _, _, ms, now) => PubrelEffect(b, t, s, n, ms, now, Next(b, step))
            case DoRetransmit(e, due, ms, now) => RetransmitEffect(b, e, due, ms, now, Next(b, step))
            case DoConnect(t, _, _, _, _) =>
              && b.sent <= Next(b, step).sent
              && SentPublish(t, p.(header := p.header.(dup := true)), n) in Next(b, step).sent[|b.sent|..]
            case _ => false
  {
    assert HistoryOk(b.sessions[s]);
    StoredPackets(b.sessions[s].history);
    match step
    case DoPubrel(_, _, _, _, _) => StepHasEffect(b, step);
    case DoRetransmit(_, _, _, _) => StepHasEffect(b, step);
    case DoConnect(t, r, newcomer, order, now) =>
      ResendWrites(b, t, r, newcomer, order, now);
      IsRewritten(b.sent, b.sessions[s], t, order, r.level, Next(b, step).sent, n);
    case _ =>
  }

  lemma IsRewritten(before: seq<Output>, d: Session, t: nat, order: ResendOrder, level: byte, sent: seq<Output>, n: uint16)
    requires Rewritten(before, d, t, order, level, sent) && n in order.publishes
    ensures before <= sent && n in d.inflight
    ensures var p := d.inflight[n]; SentPublish(t, p.(header := p.header.(dup := true)), n) in sent[|before|..]
  {
    var i :| 0 <= i < |order.publishes| && order.publishes[i] == n;
    assert sent[|before|..|before| + |order.publishes|][i] == sent[|before|..][i];
  }

  // ---------------------------------------------------------------- what a CONNECT sends again

  /** These are resent PUBLISH packets, one for each id in turn. */
  ghost predicate ArePublishes(outputs: seq<Output>, t: nat, stored: map<uint16, Packet>, ids: seq<uint16>)
  {
    && |outputs| == |ids|
    && forall i | 0 <= i < |ids| ::
         ids[i] in stored && var p := stored[ids[i]]; outputs[i] == SentPublish(t, p.(header := p.header.(dup := true)), ids[i])
  }

  ghost predicate ArePubrels(outputs: seq<Output>, t: nat, ids: seq<uint16>)
  {
    |outputs| == |ids| && forall i | 0 <= i < |ids| :: outputs[i] == SentAck(t, PUBREL, ids[i])
  }

  lemma {:induction false} ResentPublishes(t: nat, stored: map<uint16, Packet>, ids: seq<uint16>)
    requires forall id | id in ids :: id in stored && stored[id].header.ptype == PUBLISH
    ensures ArePublishes(ResendEach(t, stored, ids), t, stored, ids)
    decreases |ids|
  {
    if ids != [] {
      var init, last := ids[..|ids| - 1], ids[|ids| - 1];
      assert last in ids && forall id | id in init :: id in ids;
      ResentPublishes(t, stored, init);
    }
  }

  lemma {:induction false} ResentPubrels(t: nat, stored: map<uint16, Packet>, ids: seq<uint16>)
    requires forall id | id in ids :: id in stored && stored[id].header.ptype == PUBREL
    ensures ArePubrels(ResendEach(t, stored, ids), t, ids)
    decreases |ids|
  {
    if ids != [] {
      var init, last := ids[..|ids| - 1], ids[|ids| - 1];
      assert last in ids && forall id | id in init :: id in ids;
      ResentPubrels(t, stored, init);
    }
  }

  /** A session's stored packets as they go out again: every PUBLISH, then every PUBREL. */
  ghost function Resends(d: Session, t: nat, order: ResendOrder): seq<Output>
  {
    ResendEach(t, d.inflight, order.publishes) + ResendEach(t, d.inflightAck, order.acks)
  }

  lemma AdmitWrites<S>(b: Broker<S>, resumes: bool, t: nat, r: ConnectRequest, newcomer: S, order: ResendOrder, now: int)
    requires RegistryOk(b) && (resumes ==> r.clientId in b.registry)
    ensures Admit(b, resumes, t, r, newcomer, order, now).sent
         == b.sent + if resumes && Writable(b, b.registry[r.clientId])
                     then Resends(b.sessions[b.registry[r.clientId]], b.sessions[b.registry[r.clientId]].transport.value, order)
                     else []
  {
  }

  /** Once the session has been taken over, what matters for sending again is as it was. */
  lemma TakenOver<S>(b: Broker<S>, t: nat, r: ConnectRequest, now: int)
    requires KeepAliveInv(b) && b.clock <= now && b.held == Some(t)
    ensures RegistryOk(TakeOver(b.(clock := now), r)) && TakeOver(b.(clock := now), r).sent == b.sent
    ensures Resumes(b, r) ==>
              var b1, s := TakeOver(b.(clock := now), r), b.registry[r.clientId];
              && r.clientId in b1.registry && b1.registry[r.clientId] == s
              && (Writable(b1, s) <==> ResumesOver(b, t, r)) && SameStored(b.sessions[s], b1.sessions[s])
  {
    var b0 := b.(clock := now);
    TakeOverFades(b0, r);
    QuietKeeps(b, b0);
    if Resumes(b, r) { ResumeResendsIff(b0, t, r); }
  }

  ghost predicate SameStored(d: Session, d': Session)
  {
    d'.transport == d.transport && d'.inflight == d.inflight && d'.inflightAck == d.inflightAck
  }

  /** Every CONNECT writes its CONNACK. Before that it writes something else exactly when it resumes a
      session over that session's own transport: the session's stored packets. */
  lemma ConnectWrites<S>(b: Broker<S>, t: nat, r: ConnectRequest, newcomer: S, order: ResendOrder, now: int)
    requires KeepAliveInv(b) && Enabled(b, DoConnect(t, r, newcomer, order, now))
    ensures Next(b, DoConnect(t, r, newcomer, order, now)).sent
         == b.sent + (if ResumesOver(b, t, r) then Resends(b.sessions[b.registry[r.clientId]], t, order) else [])
            + [SentConnack(t, Resumes(b, r), if r.level == 4 then 0 else 1)]
  {
    HeldOrNot(b, Some(t));
    TakenOver(Hold(b, t), t, r, now);
    AdmitWrites(TakeOver(Hold(b, t).(clock := now), r), Resumes(b, r), t, r, newcomer, order, now);
  }

  /** And those are each stored PUBLISH once, with its DUP flag set, and then each stored PUBREL once. */
  lemma ResendWrites<S>(b: Broker<S>, t: nat, r: ConnectRequest, newcomer: S, order: ResendOrder, now: int)
    requires Inv(b) && Enabled(b, DoConnect(t, r, newcomer, order, now)) && ResumesOver(b, t, r)
    ensures OrderOf(order, b.sessions[b.registry[r.clientId]])
    ensures Rewritten(b.sent, b.sessions[b.registry[r.clientId]], t, order, r.level,
                      Next(b, DoConnect(t, r, newcomer, order, now)).sent)
  {
    var d := b.sessions[b.registry[r.clientId]];
    assert HistoryOk(d);
    ConnectWrites(b, t, r, newcomer, order, now);
    StoredIsRewritten(b.sent, d, t, order, r.level);
  }

  lemma StoredIsRewritten(before: seq<Output>, d: Session, t: nat, order: ResendOrder, level: byte)
    requires HistoryOk(d) && OrderOf(order, d)
    ensures Rewritten(before, d, t, order, level, before + Resends(d, t, order) + [ConnackTo(t, true, level)])
  {
    StoredPackets(d.history);
    ResentPublishes(t, d.inflight, order.publishes);
    ResentPubrels(t, d.inflightAck, order.acks);
    InParts(before, d, t, order, level);
  }

  ghost predicate Rewritten(before: seq<Output>, d: Session, t: nat, order: ResendOrder, level: byte, sent: seq<Output>)
  {
    var n, m := |before|, |before| + |order.publishes|;
    && |sent| == m + |order.acks| + 1 && sent[..n] == before
    && ArePublishes(sent[n..m], t, d.inflight, order.publishes) && ArePubrels(sent[m..|sent| - 1], t, order.acks)
    && sent[|sent| - 1] == SentConnack(t, true, if level == 4 then 0 else 1)
  }

  lemma InParts(before: seq<Output>, d: Session, t: nat, order: ResendOrder, level: byte)
    requires ArePublishes(ResendEach(t, d.inflight, order.publishes), t, d.inflight, order.publishes)
    requires ArePubrels(ResendEach(t, d.inflightAck, order.acks), t, order.acks)
    ensures Rewritten(before, d, t, order, level, before + Resends(d, t, order) + [ConnackTo(t, true, level)])
  {
    var sent := before + Resends(d, t, order) + [ConnackTo(t, true, level)];
    var n, m := |before|, |before| + |order.publishes|;
    var publishes, pubrels := ResendEach(t, d.inflight, order.publishes), ResendEach(t, d.inflightAck, order.acks);
    assert sent == before + publishes + pubrels + [ConnackTo(t, true, level)];
    assert sent[n..m] == publishes && sent[m..|sent| - 1] == pubrels;
  }

  /** Nothing that has been written between the two is a PUBLISH. */
  ghost predicate NoPublish(before: seq<Output>, sent: seq<Output>)
  {
    before <= sent && forall i | |before| <= i < |sent| :: !sent[i].SentPublish?
  }

  /** No PUBLISH is written or queued between the two states. */
  ghost predicate Silent<S>(b: Broker<S>, c: Broker<S>)
  {
    && NoPublish(b.sent, c.sent)
    && forall s | s in b.sessions :: s in c.sessions && c.sessions[s].messageQueue == b.sessions[s].messageQueue
  }

  lemma TouchIsSilent<S>(b: Broker<S>, client: string, now: int)
    ensures Silent(b, Touch(b, client, now))
  {
  }

  lemma WithIsSilent<S>(b: Broker<S>, s: S, d: Session)
    requires s in b.sessions ==> d.messageQueue == b.sessions[s].messageQueue
    ensures Silent(b, With(b, s, d))
  {
  }

  lemma EmitIsSilent<S>(b: Broker<S>, o: Output)
    requires !o.SentPublish?
    ensures Silent(b, Emit(b, o))
  {
  }

  lemma SilentTwice<S>(a: Broker<S>, b: Broker<S>, c: Broker<S>)
    requires Silent(a, b) && Silent(b, c)
    ensures Silent(a, c)
  {
    forall i | |a.sent| <= i < |c.sent| ensures !c.sent[i].SentPublish? {
      if i < |b.sent| { assert c.sent[i] == b.sent[i]; }
    }
  }

  lemma StoreIsSilent<S>(b: Broker<S>, t: nat, client: string, p: Packet, ms: seq<Match<S>>, now: int)
    requires p.header.qos >= 2
    ensures Silent(b, HandlePublish(b, t, client, p, ms, now))
  {
    var c := Touch(b, client, now);
    TouchIsSilent(b, client, now);
    if Known(c, client) {
      var c2 := With(c, c.registry[client], Store(c.sessions[c.registry[client]], p, GotPublish(p)));
      WithIsSilent(c, c.registry[client], c2.sessions[c.registry[client]]);
      EmitIsSilent(c2, SentAck(t, PUBREC, IdOf(p)));
      SilentTwice(b, c, c2);
      SilentTwice(b, c2, HandlePublish(b, t, client, p, ms, now));
    }
  }

  lemma AcksAreSilent<S>(b: Broker<S>, t: nat, client: string, id: uint16, now: int)
    ensures Silent(b, HandlePuback(b, client, id, now))
    ensures Silent(b, HandlePubrec(b, t, client, id, now))
    ensures Silent(b, HandlePubcomp(b, client, id, now))
  {
    TouchIsSilent(b, client, now);
  }

  lemma PubrelIsSilent<S>(b: Broker<S>, t: nat, client: string, id: uint16, ms: seq<Match<S>>, now: int)
    requires Known(b, client) ==> id !in b.sessions[b.registry[client]].inflight
    ensures Silent(b, HandlePubrel(b, t, client, id, ms, now))
  {
    TouchIsSilent(b, client, now);
    if Known(b, client) {
      var c, s := Touch(b, client, now), b.registry[client];
      var c2 := ReleaseAndRoute(c, s, id, ms, now);
      WithIsSilent(c, s, Released(c.sessions[s], id));
      EmitIsSilent(c2, SentAck(t, PUBCOMP, id));
      SilentTwice(b, c, c2);
      SilentTwice(b, c2, HandlePubrel(b, t, client, id, ms, now));
    }
  }

  lemma TransportsAreSilent<S>(b: Broker<S>, t: nat, client: string)
    requires RegistryOk(b)
    ensures Silent(b, Open(b)) && Silent(b, Close(b, t)) && Silent(b, BadFrame(b, t, client))
  {
  }

  /** These are all: a step that is not itself the PUBLISH of a QoS 0 or 1 packet, and sends no stored
      packet, publishes nothing at all. */
  lemma OthersPublishNothing<S>(b: Broker<S>, step: Step<S>)
    requires Inv(b) && Enabled(b, step)
    requires step.DoPublish? ==> step.packet.header.qos >= 2
    requires forall s, n: uint16 :: !SendsStored(b, step, s, n)
    ensures Silent(b, Next(b, step))
  {
    match step
    case DoOpen => TransportsAreSilent(b, 0, "");
    case DoClose(t) => TransportsAreSilent(b, t, "");
    case DoBadFrame(t, client) => TransportsAreSilent(b, t, client);
    case DoConnect(t, r, newcomer, order, now) =>
      if ResumesOver(b, t, r) { NothingToSend(b, step); }
      ConnectIsSilent(b, t, r, newcomer, order, now);
    case DoPublish(t, client, p, ms, now) => StoreIsSilent(Hold(b, t), t, client, p, ms, now);
    case DoSubscribe(t, client, id, fs, now) => SilentReply(b, client, SentSuback(t, id, SubackCodes(fs)), now);
    case DoPuback(client, id, now) => AcksAreSilent(b, 0, client, id, now);
    case DoPubrec(t, client, id, now) => AcksAreSilent(b, t, client, id, now);
    case DoPubrel(t, client, id, ms, now) =>
      if Known(b, client) { assert !SendsStored(b, step, b.registry[client], id); }
      PubrelIsSilent(b, t, client, id, ms, now);
    case DoPubcomp(client, id, now) => AcksAreSilent(b, 0, client, id, now);
    case DoPingreq(t, client, now) => SilentReply(b, client, SentPing(t), now);
    case DoExpire(order, now) => ExpireIsSilent(b, order, now);
    case DoRetransmit(e, due, ms, now) =>
      RetransmitRoutes(b, e, due);
      assert SendsStored(b, step, e.item.session, e.item.packetId);
  }

  lemma NothingToSend<S>(b: Broker<S>, step: Step<S>)
    requires step.DoConnect? && ResumesOver(b, step.t, step.request)
    requires forall s, n: uint16 :: !SendsStored(b, step, s, n)
    ensures b.sessions[b.registry[step.request.clientId]].inflight == map[]
  {
    forall n: uint16 ensures n !in b.sessions[b.registry[step.request.clientId]].inflight {
      assert !SendsStored(b, step, b.registry[step.request.clientId], n);
    }
  }

  lemma RetransmitRoutes<S>(b: Broker<S>, e: Timed<Retry<S>>, due: int)
    requires StorageInv(b) && e in b.retransmit && CanRetransmit(b, e, due)
    ensures e.item.session in b.sessions && e.item.packetId in b.sessions[e.item.session].inflight
  {
  }

  lemma SilentReply<S>(b: Broker<S>, client: string, o: Output, now: int)
    requires !o.SentPublish?
    ensures Silent(b, Emit(Touch(b, client, now), o))
  {
    TouchIsSilent(b, client, now);
    EmitIsSilent(Touch(b, client, now), o);
    SilentTwice(b, Touch(b, client, now), Emit(Touch(b, client, now), o));
  }

  /** A CONNECT publishes nothing if there is no stored PUBLISH for it to send again. */
  lemma ConnectIsSilent<S>(b: Broker<S>, t: nat, r: ConnectRequest, newcomer: S, order: ResendOrder, now: int)
    requires Inv(b) && Enabled(b, DoConnect(t, r, newcomer, order, now))
    requires ResumesOver(b, t, r) ==> b.sessions[b.registry[r.clientId]].inflight == map[]
    ensures Silent(b, Next(b, DoConnect(t, r, newcomer, order, now)))
  {
    ConnectQueuesNothing(Hold(b, t), t, r, newcomer, order, now);
    ConnectPublishesNothing(b, t, r, newcomer, order, now);
  }

  lemma ConnectPublishesNothing<S>(b: Broker<S>, t: nat, r: ConnectRequest, newcomer: S, order: ResendOrder, now: int)
    requires Inv(b) && Enabled(b, DoConnect(t, r, newcomer, order, now))
    requires ResumesOver(b, t, r) ==> b.sessions[b.registry[r.clientId]].inflight == map[]
    ensures NoPublish(b.sent, Next(b, DoConnect(t, r, newcomer, order, now)).sent)
  {
    if ResumesOver(b, t, r) {
      ResendWrites(b, t, r, newcomer, order, now);
      NoPublishAmong(b.sent, b.sessions[b.registry[r.clientId]], t, order, r.level,
                     Next(b, DoConnect(t, r, newcomer, order, now)).sent);
    } else {
      ConnectWrites(b, t, r, newcomer, order, now);
      OnlyConnack(b.sent, ConnackTo(t, Resumes(b, r), r.level));
    }
  }

  lemma OnlyConnack(before: seq<Output>, o: Output)
    requires !o.SentPublish?
    ensures NoPublish(before, before + [] + [o])
  {
  }

  lemma FirstIsListed(ids: seq<uint16>)
    requires ids != []
    ensures exists id :: id in ids
  {
    assert ids[0] in ids;
  }

  lemma NoPublishAmong(before: seq<Output>, d: Session, t: nat, order: ResendOrder, level: byte, sent: seq<Output>)
    requires Rewritten(before, d, t, order, level, sent) && ListsEach(order.publishes, {})
    ensures NoPublish(before, sent)
  {
    if order.publishes != [] { FirstIsListed(order.publishes); }
    forall i | |before| <= i < |sent| ensures !sent[i].SentPublish? {
      if i < |sent| - 1 { assert sent[|before|..|sent| - 1][i - |before|] == sent[i]; }
    }
  }

  lemma ConnectQueuesNothing<S>(b: Broker<S>, t: nat, r: ConnectRequest, newcomer: S, order: ResendOrder, now: int)
    requires RegistryOk(b) && (Registers(b, r) ==> newcomer !in b.sessions)
    ensures var c := HandleConnect(b, t, r, newcomer, order, now);
            forall s | s in b.sessions :: s in c.sessions && c.sessions[s].messageQueue == b.sessions[s].messageQueue
  {
    ConnectChanges(b, t, r, newcomer, order, now);
  }

  lemma ExpireIsSilent<S>(b: Broker<S>, order: seq<Timed<S>>, now: int)
    requires ExpiryOk(b) && DrainOrder(b, order, now) && b.clock <= now
    requires forall e | e in order :: e.item in b.sessions
    ensures Silent(b, Expire(b, order, now))
  {
    var popped := b.(clock := now, expiry := b.expiry - multiset(order));
    ExpirePhases(b, order, now);
    DisconnectAllSendsNothing(popped, Overdue(b, order, now));
    ScheduleAllSendsNothing(DisconnectAll(popped, Overdue(b, order, now)), Stale(b, order, now));
  }

  lemma {:induction false} DisconnectAllSendsNothing<S>(b: Broker<S>, ss: seq<S>)
    requires forall s | s in ss :: s in b.sessions
    ensures DisconnectAll(b, ss).sent == b.sent
    decreases |ss|
  {
    if ss != [] { DisconnectAllSendsNothing(b, ss[..|ss| - 1]); }
  }

  lemma {:induction false} ScheduleAllSendsNothing<S>(b: Broker<S>, ss: seq<S>)
    requires forall s | s in ss :: s in b.sessions
    ensures ScheduleAll(b, ss).sent == b.sent
    decreases |ss|
  {
    if ss != [] { ScheduleAllSendsNothing(b, ss[..|ss| - 1]); }
  }

  /** When a retransmission pass routes what event `j` stored: the entry's session is `s`, its id is
      that of the event, which was accepted, and the id has not been removed since. The id is the one
      allocated for some delivery, so the event may well be the client's own QoS 2 PUBLISH. */
  lemma RetransmitRoutesIff<S>(states: seq<Broker<S>>, steps: seq<Step<S>>, i: nat, s: S, j: nat)
    requires Execution(states, steps) && i < |steps| && steps[i].DoRetransmit? && s in states[i].sessions
    ensures SendsEvent(states[i], steps[i], s, j)
       <==> (var h, e := states[i].sessions[s].history, steps[i].entry;
             e.item.session == s && Accepted(h, j) && IdOf(h[j].packet) == e.item.packetId
             && !RemovedBetween(h, e.item.packetId, j, |h|))
  {
    ReachableStates(states, steps, i);
    HolderIsAccepted(states[i].sessions[s], steps[i].entry.item.packetId, j);
  }

  /** When a CONNECT sends what event `j` stored: it resumes session `s` over the session's own
      transport, the event was accepted, and its id has not been removed since. */
  lemma ConnectSendsIff<S>(states: seq<Broker<S>>, steps: seq<Step<S>>, i: nat, s: S, j: nat)
    requires Execution(states, steps) && i < |steps| && steps[i].DoConnect? && s in states[i].sessions
    ensures SendsEvent(states[i], steps[i], s, j)
       <==> (var h, r := states[i].sessions[s].history, steps[i].request;
             ResumesOver(states[i], steps[i].t, r) && states[i].registry[r.clientId] == s && Accepted(h, j)
             && !RemovedBetween(h, IdOf(h[j].packet), j, |h|))
  {
    ReachableStates(states, steps, i);
    var h := states[i].sessions[s].history;
    if j < |h| && (h[j].GotPublish? || h[j].Delivered?) {
      HolderIsAccepted(states[i].sessions[s], IdOf(h[j].packet), j);
    }
  }

  lemma HolderIsAccepted(d: Session, n: uint16, j: nat)
    requires HistoryOk(d)
    ensures var h := d.history;
            Holder(h, n, j) <==> Accepted(h, j) && IdOf(h[j].packet) == n && !RemovedBetween(h, n, j, |h|)
    ensures Holder(d.history, n, j) ==> n in d.inflight
  {
    assert d.history[..|d.history|] == d.history;
    AcceptedHolds(d.history, |d.history|, n, j);
    HeldIffHolder(d.history, n);
  }

  // ---------------------------------------------------------------- exactly once, by any step

  /** Event `r` of the session's history is what step `i` was for it. */
  ghost predicate RecordedAt<S>(states: seq<Broker<S>>, steps: seq<Step<S>>, i: nat, s: S, r: nat, e: Event)
  {
    && i < |steps| && i < |states| && s in states[i].sessions
    && |states[i].sessions[s].history| == r && EventsOf(states[i], steps[i], s) == [e]
  }

  /** Every event that is not a delivery was recorded by a step of its kind. */
  lemma {:induction false} EventFromStep<S>(states: seq<Broker<S>>, steps: seq<Step<S>>, k: nat, s: S, r: nat)
    requires Execution(states, steps) && k < |states| && s in states[k].sessions
    requires r < |states[k].sessions[s].history| && !states[k].sessions[s].history[r].Delivered?
    ensures exists i: nat :: i < k && RecordedAt(states, steps, i, s, r, states[k].sessions[s].history[r])
    decreases k
  {
    if k > 0 {
      var i := k - 1;
      ReachableStates(states, steps, i);
      assert states[i + 1] == Next(states[i], steps[i]);
      if s !in states[i].sessions {
        Newborn(states[i], steps[i], s);
      } else {
        var h, h2, events := states[i].sessions[s].history, states[k].sessions[s].history, EventsOf(states[i], steps[i], s);
        ExecutionStepRecords(states, steps, i, s);
        ContinuesIsPrefix(h, events, h2);
        if r < |h| {
          EventFromStep(states, steps, i, s, r);
        } else {
          assert h2[r] == (h + events)[r];
          assert RecordedAt(states, steps, i, s, r, h2[r]);
        }
      }
    }
  }

  lemma NoDeliveryNoEntry<S>(states: seq<Broker<S>>, steps: seq<Step<S>>, i: nat, s: S)
    requires Execution(states, steps) && i < |states| && s in states[i].sessions
    requires forall x | 0 <= x < |states[i].sessions[s].history| :: !states[i].sessions[s].history[x].Delivered?
    ensures forall e | e in states[i].retransmit :: e.item.session != s
  {
    EveryEntryWasDelivered(states, steps, i);
  }

  /** A PUBREL that sends a stored packet releases it, in the history of any later state. */
  lemma PubrelIsRelease<S>(states: seq<Broker<S>>, steps: seq<Step<S>>, k: nat, s: S, j: nat, i: nat)
    requires Execution(states, steps) && i < k < |states| && s in states[k].sessions
    requires steps[i].DoPubrel? && SendsEvent(states[i], steps[i], s, j)
    ensures Releases(states[k].sessions[s].history, |states[i].sessions[s].history|, j)
    ensures states[k].sessions[s].history[..|states[i].sessions[s].history|] == states[i].sessions[s].history
  {
    var h, h0 := states[k].sessions[s].history, states[i].sessions[s].history;
    ExecutionStepRecords(states, steps, i, s);
    HistoriesOnlyGrow(states, steps, i + 1, k, s);
    var h1, n := states[i + 1].sessions[s].history, IdOf(h0[j].packet);
    assert EventsOf(states[i], steps[i], s) == [GotPubrel(n)];
    PubrelIsRecorded(h0, n, h1, h);
    AcceptedHolds(h, |h0|, n, j);
  }

  lemma PubrelIsRecorded(h0: seq<Event>, n: uint16, h1: seq<Event>, h: seq<Event>)
    requires Continues(h0, [GotPubrel(n)], h1) && h1 <= h
    ensures |h0| < |h1| && |h0| < |h| && h[|h0|] == GotPubrel(n) && h[..|h0|] == h0
  {
    PubrelRoutesWithin(h0, n, h1, h);
  }

  /** What has been released is held no more. */
  lemma ReleasedIsGone(h0: seq<Event>, h: seq<Event>, r: nat, j: nat)
    requires r < |h0| && h0 <= h && Releases(h, r, j)
    ensures !Holder(h0, IdOf(h0[j].packet), j)
  {
    assert h0[r] == h[r] && h0[j] == h[j];
    AcceptedHolds(h0, |h0|, IdOf(h0[j].packet), j);
    assert h0[..|h0|] == h0;
  }

  /** After a PUBREL has sent a stored packet, no step sends it again. */
  lemma PubrelIsLast<S>(states: seq<Broker<S>>, steps: seq<Step<S>>, s: S, j: nat, i: nat, i2: nat)
    requires Execution(states, steps) && i < i2 < |steps|
    requires steps[i].DoPubrel? && SendsEvent(states[i], steps[i], s, j)
    ensures !SendsEvent(states[i2], steps[i2], s, j)
  {
    ExecutionStepRecords(states, steps, i, s);
    HistoriesOnlyGrow(states, steps, i + 1, i2, s);
    PubrelIsRelease(states, steps, i2, s, j, i);
    var h := states[i2].sessions[s].history;
    ReleasedIsGone(h, h, |states[i].sessions[s].history|, j);
  }

  lemma ReleaseIsRouting<S>(states: seq<Broker<S>>, steps: seq<Step<S>>, k: nat, s: S, j: nat, r: nat)
    requires Execution(states, steps) && k < |states| && s in states[k].sessions
    requires Releases(states[k].sessions[s].history, r, j)
    ensures exists i: nat :: i < k && steps[i].DoPubrel? && SendsEvent(states[i], steps[i], s, j)
  {
    var h := states[k].sessions[s].history;
    var n := h[r].id;
    EventFromStep(states, steps, k, s, r);
    var i: nat :| i < k && RecordedAt(states, steps, i, s, r, h[r]);
    HistoriesOnlyGrow(states, steps, i, k, s);
    ReachableStates(states, steps, i);
    var h0 := states[i].sessions[s].history;
    assert h[..r] == h0;
    AcceptedHolds(h, r, n, j);
    HolderIsAccepted(states[i].sessions[s], n, j);
    assert h0[j] == h[j];
    assert SendsEvent(states[i], steps[i], s, j);
  }

  /** QoS 2 exactly once (section 4.3.3 of MQTT 3.1.1), of what a session itself holds: for a session that
      has had no delivery up to state `k`, what event `j` stored there is routed by at most one step, a
      PUBREL, and by one exactly when the next removal of its id is a PUBREL. The only other steps that
      send it come before that one, and are CONNECTs which resume the session over its own transport. The
      copies that the PUBREL leaves with subscribers are events of theirs: see `CarriedByOneStepIff`. */
  lemma RoutedByOneStep<S>(states: seq<Broker<S>>, steps: seq<Step<S>>, k: nat, s: S, j: nat)
    requires Execution(states, steps) && k < |states| && s in states[k].sessions
    requires forall x | 0 <= x < |states[k].sessions[s].history| :: !states[k].sessions[s].history[x].Delivered?
    ensures forall i: nat | i < k && SendsEvent(states[i], steps[i], s, j) ::
              steps[i].DoPubrel? || (steps[i].DoConnect? && ResumesOver(states[i], steps[i].t, steps[i].request))
    ensures forall i: nat, i2: nat | i < i2 < k && steps[i].DoPubrel? ::
              !(SendsEvent(states[i], steps[i], s, j) && SendsEvent(states[i2], steps[i2], s, j))
    ensures (exists i: nat :: i < k && steps[i].DoPubrel? && SendsEvent(states[i], steps[i], s, j))
       <==> (exists r: nat :: Releases(states[k].sessions[s].history, r, j))
  {
    var h := states[k].sessions[s].history;
    forall i: nat | i < k && SendsEvent(states[i], steps[i], s, j)
      ensures steps[i].DoPubrel? || (steps[i].DoConnect? && ResumesOver(states[i], steps[i].t, steps[i].request))
      ensures steps[i].DoPubrel? ==> Releases(h, |states[i].sessions[s].history|, j)
    {
      NoPassSends(states, steps, k, s, i, j);
      if steps[i].DoPubrel? { PubrelIsRelease(states, steps, k, s, j, i); }
    }
    forall i: nat, i2: nat | i < i2 < k && steps[i].DoPubrel?
      ensures !(SendsEvent(states[i], steps[i], s, j) && SendsEvent(states[i2], steps[i2], s, j))
    {
      if SendsEvent(states[i], steps[i], s, j) { PubrelIsLast(states, steps, s, j, i, i2); }
    }
    forall r: nat | Releases(h, r, j)
      ensures exists i: nat :: i < k && steps[i].DoPubrel? && SendsEvent(states[i], steps[i], s, j)
    {
      ReleaseIsRouting(states, steps, k, s, j, r);
    }
  }

  lemma NoPassSends<S>(states: seq<Broker<S>>, steps: seq<Step<S>>, k: nat, s: S, i: nat, j: nat)
    requires Execution(states, steps) && i < k < |states| && s in states[k].sessions
    requires forall x | 0 <= x < |states[k].sessions[s].history| :: !states[k].sessions[s].history[x].Delivered?
    requires SendsEvent(states[i], steps[i], s, j)
    ensures !steps[i].DoRetransmit?
  {
    HistoriesOnlyGrow(states, steps, i, k, s);
    ReachableStates(states, steps, i);
    NoDeliveryNoEntry(states, steps, i, s);
  }

  /** With at most one CONNECT on each transport (section 3.1 of MQTT 3.1.1) nothing is sent again from
      the session itself: only the PUBREL sends what event `j` stored there. */
  lemma SentByOneStep<S>(states: seq<Broker<S>>, steps: seq<Step<S>>, k: nat, s: S, j: nat)
    requires Execution(states, steps) && OneConnectEach(steps) && k < |states| && s in states[k].sessions
    requires forall x | 0 <= x < |states[k].sessions[s].history| :: !states[k].sessions[s].history[x].Delivered?
    ensures forall i: nat | i < k && SendsEvent(states[i], steps[i], s, j) :: steps[i].DoPubrel?
    ensures forall i: nat, i2: nat | i < i2 < k ::
              !(SendsEvent(states[i], steps[i], s, j) && SendsEvent(states[i2], steps[i2], s, j))
    ensures (exists i: nat :: i < k && SendsEvent(states[i], steps[i], s, j))
       <==> (exists r: nat :: Releases(states[k].sessions[s].history, r, j))
  {
    RoutedByOneStep(states, steps, k, s, j);
    forall i: nat | i < k && steps[i].DoConnect? ensures !ResumesOver(states[i], steps[i].t, steps[i].request) {
      NobodyResumesOver(states, steps, i);
    }
  }

  lemma NobodyResumesOver<S>(states: seq<Broker<S>>, steps: seq<Step<S>>, i: nat)
    requires Execution(states, steps) && OneConnectEach(steps) && i < |steps| && steps[i].DoConnect?
    ensures !ResumesOver(states[i], steps[i].t, steps[i].request)
  {
    if ResumesOver(states[i], steps[i].t, steps[i].request) {
      var s := states[i].registry[steps[i].request.clientId];
      EverySessionWasBorn(states, steps, i, s);
    }
  }

  // ---------------------------------------------------------------- a top that blocks the heap

  /** A due entry with the strictly least key, whose session has been freed. */
  ghost predicate Blocks<S>(b: Broker<S>, e: Timed<Retry<S>>)
  {
    && e in b.retransmit && e.key <= b.clock && e.item.session in b.sessions && !Live(b, e.item.session)
    && forall x | x in b.retransmit && x != e :: e.key < x.key
  }

  /** Entries stay, new ones are due later than the clock, and the clock does not go back. */
  ghost predicate PushesLater<S>(b: Broker<S>, c: Broker<S>)
  {
    && b.clock <= c.clock && (forall e | e in b.retransmit :: e in c.retransmit)
    && forall e | e in c.retransmit :: e in b.retransmit || e.key > b.clock
  }

  lemma RoutePushesLater<S>(b: Broker<S>, p: Packet, ms: seq<Match<S>>, now: int)
    requires b.clock == now
    ensures PushesLater(b, Route(b, p, ms, now).b)
  {
    OneEntryPerPositiveSend(b, p, ms, now);
    RouteIsQuiet(b, p, ms, now);
    var r := Route(b, p, ms, now).b.retransmit;
    forall e | e in r ensures e in b.retransmit || e.key > now {
      if e !in b.retransmit { assert e in r - b.retransmit; }
    }
  }

  lemma PublishPushesLater<S>(b: Broker<S>, t: nat, client: string, p: Packet, ms: seq<Match<S>>, now: int)
    requires b.clock <= now
    ensures PushesLater(b, HandlePublish(b, t, client, p, ms, now))
  {
    if p.header.qos < 2 { RoutePushesLater(Touch(b, client, now), p, ms, now); }
  }

  lemma PubrelPushesLater<S>(b: Broker<S>, t: nat, client: string, id: uint16, ms: seq<Match<S>>, now: int)
    requires b.clock <= now
    ensures PushesLater(b, HandlePubrel(b, t, client, id, ms, now))
  {
    if Known(b, client) {
      var c, s := Touch(b, client, now), b.registry[client];
      var d := c.sessions[s];
      if id in d.inflight { RoutePushesLater(With(c, s, Released(d, id)), d.inflight[id], ms, now); }
    }
  }

  lemma StepPushesLater<S>(b: Broker<S>, step: Step<S>)
    requires KeepAliveInv(b) && Enabled(b, step) && !step.DoRetransmit?
    ensures PushesLater(b, Next(b, step))
  {
    match step
    case DoPublish(t, client, p, ms, now) => PublishPushesLater(Hold(b, t), t, client, p, ms, now);
    case DoPubrel(t, client, id, ms, now) => PubrelPushesLater(Hold(b, t), t, client, id, ms, now);
    case _ =>
      OthersPushNothing(b, step);
      ClockRises(b, step);
  }

  lemma ClockRises<S>(b: Broker<S>, step: Step<S>)
    requires KeepAliveInv(b) && Enabled(b, step)
    ensures b.clock <= Next(b, step).clock
  {
    match step
    case DoOpen =>
    case DoClose(t) =>
    case DoBadFrame(t, client) =>
    case DoConnect(t, r, newcomer, order, now) => ConnectTicks(Hold(b, t), t, r, newcomer, order, now);
    case DoExpire(order, now) => ExpirePhases(b, order, now);
    case _ => QuietStep(b, step);
  }

  lemma ConnectTicks<S>(b: Broker<S>, t: nat, r: ConnectRequest, newcomer: S, order: ResendOrder, now: int)
    requires RegistryOk(b)
    ensures HandleConnect(b, t, r, newcomer, order, now).clock == now
  {
    TakeOverFades(b.(clock := now), r);
  }

  lemma BlockedStep<S>(b: Broker<S>, step: Step<S>, e: Timed<Retry<S>>)
    requires KeepAliveInv(b) && Enabled(b, step) && Blocks(b, e)
    ensures !step.DoRetransmit? && Blocks(Next(b, step), e)
  {
    if !step.DoRetransmit? {
      StepPushesLater(b, step);
      FreedStaysFreed(b, step, e.item.session);
    }
  }

  lemma ExecutionStepBlocked<S>(states: seq<Broker<S>>, steps: seq<Step<S>>, i: nat, e: Timed<Retry<S>>)
    requires Execution(states, steps) && i < |steps| && Blocks(states[i], e)
    ensures !steps[i].DoRetransmit? && Blocks(states[i + 1], e)
  {
    ReachableStates(states, steps, i);
    BlockedStep(states[i], steps[i], e);
  }

  /** Such an entry stays, and stays on top, in every later state. */
  lemma {:induction false} BlockedForever<S>(states: seq<Broker<S>>, steps: seq<Step<S>>, i: nat, j: nat, e: Timed<Retry<S>>)
    requires Execution(states, steps) && i <= j < |states| && Blocks(states[i], e)
    ensures Blocks(states[j], e)
    decreases j - i
  {
    if i < j {
      BlockedForever(states, steps, i, j - 1, e);
      ExecutionStepBlocked(states, steps, j - 1, e);
      assert j - 1 + 1 == j;
    }
  }

  /** So from then on nothing is ever retransmitted, whoever it was delivered to. */
  lemma NothingIsRetransmitted<S>(states: seq<Broker<S>>, steps: seq<Step<S>>, i: nat, j: nat, e: Timed<Retry<S>>)
    requires Execution(states, steps) && i <= j < |steps| && Blocks(states[i], e)
    ensures !steps[j].DoRetransmit?
  {
    BlockedForever(states, steps, i, j, e);
    ExecutionStepBlocked(states, steps, j, e);
  }
}
