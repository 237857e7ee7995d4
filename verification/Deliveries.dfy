/** The DUP flag of what is sent, and the packet ids that deliveries get, over every run. */
module Deliveries {
  import opened Packets
  import opened Wrappers
  import opened InflightHistory
  import opened Sessions
  import opened BrokerModel
  import opened BrokerInvariants
  import opened KeepAlive
  import opened BrokerRuns
  import opened Routing
  import opened Effects
  import opened Retransmissions
  import Copies

  // ---------------------------------------------------------------- the DUP flag

  /** The output is a PUBLISH of the packet `p`, at its QoS or a lower one: with the same DUP and RETAIN flags,
      length, topic, payload and packet id of its own. */
  ghost predicate Carries(o: Output, p: Packet)
  {
    && o.SentPublish? && o.packet.header.qos <= p.header.qos
    && o.packet == Packet(Header(p.header.ptype, p.header.dup, o.packet.header.qos, p.header.retain), p.pktLen, p.body)
  }

  /** What has been written between the two is such PUBLISH packets only. */
  ghost predicate AllCarry(before: seq<Output>, sent: seq<Output>, p: Packet)
  {
    before <= sent && forall k | |before| <= k < |sent| :: Carries(sent[k], p)
  }

  lemma {:induction false} RouteCarries<S>(b: Broker<S>, p: Packet, ms: seq<Match<S>>, now: int)
    ensures AllCarry(b.sent, Route(b, p, ms, now).b.sent, p)
    decreases |ms|
  {
    if ms != [] {
      var n := |ms| - 1;
      RouteCarries(b, p, ms[..n], now);
      EachMatch(b, p, ms, n, now);
      assert ms[..n + 1] == ms;
    }
  }

  /** Over every run: a retransmission pass writes nothing but the packet it has found stored, with the DUP flag
      set (section 3.3.1.1 of MQTT 3.1.1); and what it records as delivered has that flag too. */
  lemma PassSetsDup<S>(states: seq<Broker<S>>, steps: seq<Step<S>>, i: nat)
    requires Execution(states, steps) && i < |steps| && steps[i].DoRetransmit?
    ensures var s, id := steps[i].entry.item.session, steps[i].entry.item.packetId;
            && s in states[i].sessions && id in states[i].sessions[s].inflight
            && var p := states[i].sessions[s].inflight[id];
               && AllCarry(states[i].sent, states[i + 1].sent, p.(header := p.header.(dup := true)))
               && forall d, k: nat | Copies.RecordedBy(states, i, d, k) :: states[i + 1].sessions[d].history[k].packet.header.dup
  {
    EveryStep(states, steps, i);
    var b, ms, now := states[i], steps[i].matches, steps[i].now;
    var p := b.sessions[steps[i].entry.item.session].inflight[steps[i].entry.item.packetId];
    var q := p.(header := p.header.(dup := true));
    RouteCarries(b.(clock := now), q, ms, now);
    forall d, k: nat | Copies.RecordedBy(states, i, d, k) ensures states[i + 1].sessions[d].history[k].packet.header.dup {
      Copies.RouteAdds(b.(clock := now), q, ms, now, d);
    }
  }

  /** Every PUBLISH that has been written between the two is one of the packet `p`. */
  ghost predicate PublishesOnly(before: seq<Output>, sent: seq<Output>, p: Packet)
  {
    before <= sent && forall k | |before| <= k < |sent| :: sent[k].SentPublish? ==> Carries(sent[k], p)
  }

  /** What a PUBLISH with QoS 0 or 1, or a PUBREL, sends has the flag that it came with. */
  lemma RoutingKeepsDup<S>(states: seq<Broker<S>>, steps: seq<Step<S>>, i: nat)
    requires Execution(states, steps) && i < |steps|
    ensures steps[i].DoPublish? ==> PublishesOnly(states[i].sent, states[i + 1].sent, steps[i].packet)
    ensures steps[i].DoPubrel? && steps[i].client in states[i].registry ==>
              var d := states[i].sessions[states[i].registry[steps[i].client]];
              steps[i].packetId in d.inflight ==>
                PublishesOnly(states[i].sent, states[i + 1].sent, d.inflight[steps[i].packetId])
  {
    EveryStep(states, steps, i);
    if steps[i].DoPublish? { PublishCarries(states[i], steps[i], states[i + 1]); }
    if steps[i].DoPubrel? && steps[i].client in states[i].registry
       && steps[i].packetId in states[i].sessions[states[i].registry[steps[i].client]].inflight
    {
      PubrelCarries(states[i], steps[i], states[i + 1]);
    }
  }

  lemma PublishCarries<S>(b: Broker<S>, step: Step<S>, c: Broker<S>)
    requires RegistryOk(b) && step.DoPublish? && Effect(b, step, c)
    ensures PublishesOnly(b.sent, c.sent, step.packet)
  {
    var heard := b.(clock := step.now, held := Some(step.t), sessions := Heard(b, step.client, step.now));
    RouteCarries(heard, step.packet, step.matches, step.now);
  }

  lemma PubrelCarries<S>(b: Broker<S>, step: Step<S>, c: Broker<S>)
    requires RegistryOk(b) && step.DoPubrel? && Effect(b, step, c) && step.client in b.registry
    requires step.packetId in b.sessions[b.registry[step.client]].inflight
    ensures PublishesOnly(b.sent, c.sent, b.sessions[b.registry[step.client]].inflight[step.packetId])
  {
    var s, id, now := b.registry[step.client], step.packetId, step.now;
    var d := b.sessions[s];
    var e := d.(lastActivity := now, inflight := d.inflight - {id}, history := d.history + [GotPubrel(id)]);
    var heard := b.(clock := now, held := Some(step.t),
                    sessions := b.sessions[s := e.(routed := d.routed + [d.inflight[id]])]);
    RouteCarries(heard, d.inflight[id], step.matches, now);
  }

  /** What a CONNECT sends again is a packet that its session has stored, under the id it is stored under, on the
      CONNECT's own transport, with the DUP flag set. */
  lemma ResumptionSetsDup<S>(states: seq<Broker<S>>, steps: seq<Step<S>>, i: nat, k: nat)
    requires Execution(states, steps) && i < |steps| && steps[i].DoConnect?
    requires |states[i].sent| <= k < |states[i + 1].sent| && states[i + 1].sent[k].SentPublish?
    ensures var b, o, r := states[i], states[i + 1].sent[k], steps[i].request;
            && o.transport == steps[i].t && r.clientId in b.registry && !r.cleanSession
            && var d := b.sessions[b.registry[r.clientId]];
               && d.transport == Some(steps[i].t) && o.packetId in d.inflight
               && var p := d.inflight[o.packetId]; o.packet == p.(header := p.header.(dup := true))
  {
    ReachableStates(states, steps, i);
    ConnectSetsDup(states[i], steps[i], k);
  }

  lemma ConnectSetsDup<S>(b: Broker<S>, step: Step<S>, k: nat)
    requires Inv(b) && Enabled(b, step) && step.DoConnect?
    requires |b.sent| <= k < |Next(b, step).sent| && Next(b, step).sent[k].SentPublish?
    ensures ResumesOver(b, step.t, step.request)
    ensures var o, d := Next(b, step).sent[k], b.sessions[b.registry[step.request.clientId]];
            && o.transport == step.t && o.packetId in d.inflight
            && var p := d.inflight[o.packetId]; o.packet == p.(header := p.header.(dup := true))
  {
    ConnectWrites(b, step.t, step.request, step.newcomer, step.resend, step.now);
    if ResumesOver(b, step.t, step.request) {
      ResendWrites(b, step.t, step.request, step.newcomer, step.resend, step.now);
      RewrittenSetsDup(b.sent, b.sessions[b.registry[step.request.clientId]], step.t, step.resend, step.request.level,
                       Next(b, step).sent, k);
    }
  }

  lemma RewrittenSetsDup(before: seq<Output>, d: Session, t: nat, order: ResendOrder, level: byte, sent: seq<Output>, k: nat)
    requires Rewritten(before, d, t, order, level, sent) && |before| <= k < |sent| && sent[k].SentPublish?
    ensures sent[k].transport == t && sent[k].packetId in d.inflight
    ensures var p := d.inflight[sent[k].packetId]; sent[k].packet == p.(header := p.header.(dup := true))
  {
    var n, m := |before|, |before| + |order.publishes|;
    if k < m { assert sent[n..m][k - n] == sent[k]; }
  }

  // ---------------------------------------------------------------- packet ids

  /** How many deliveries above QoS 0 a session has had. */
  ghost function DeliveryCount(h: seq<Event>): nat
  {
    if h == [] then 0 else DeliveryCount(h[..|h| - 1]) + if h[|h| - 1].Delivered? then 1 else 0
  }

  /** The id of a session's n-th delivery, counting from 1. */
  ghost function NthId(n: nat): (id: uint16)
    ensures id > 0
  {
    n % 65535 + 1
  }

  lemma NextIdInTurn(n: nat)
    ensures NthId(n + 1) == if NthId(n) == 65535 then 1 else NthId(n) + 1
  {
  }

  /** Event `k`, if it is a delivery, has the id of its turn. */
  ghost predicate EventInTurn(h: seq<Event>, k: nat)
    requires k < |h|
  {
    h[k].Delivered? ==> h[k].retryId == NthId(DeliveryCount(h[..k]) + 1)
  }

  /** The n-th delivery has the n-th id, and the next one will have the next. */
  ghost predicate IdsInTurn(d: Session)
  {
    && d.nextPacketId == NthId(DeliveryCount(d.history))
    && forall k | 0 <= k < |d.history| :: EventInTurn(d.history, k)
  }

  lemma OneMoreEvent(h: seq<Event>, e: Event)
    ensures DeliveryCount(h + [e]) == DeliveryCount(h) + if e.Delivered? then 1 else 0
  {
    assert (h + [e])[..|h|] == h;
  }

  lemma EarlierInTurn(h: seq<Event>, e: Event, k: nat)
    requires k < |h| && EventInTurn(h, k)
    ensures EventInTurn(h + [e], k)
  {
    assert (h + [e])[..k] == h[..k];
  }

  lemma LastInTurn(h: seq<Event>, e: Event)
    requires e.Delivered? ==> e.retryId == NthId(DeliveryCount(h) + 1)
    ensures EventInTurn(h + [e], |h|)
  {
    assert (h + [e])[..|h|] == h;
  }

  /** One more event, which is the next delivery or none. */
  lemma EventKeepsTurn(d: Session, d': Session, e: Event)
    requires IdsInTurn(d) && d'.history == d.history + [e]
    requires if e.Delivered? then e.retryId == NthId(DeliveryCount(d.history) + 1) && d'.nextPacketId == e.retryId
             else d'.nextPacketId == d.nextPacketId
    ensures IdsInTurn(d')
  {
    OneMoreEvent(d.history, e);
    forall k | 0 <= k < |d'.history| ensures EventInTurn(d'.history, k) {
      if k < |d.history| { EarlierInTurn(d.history, e, k); } else { LastInTurn(d.history, e); }
    }
  }

  ghost predicate AllInTurn<S>(b: Broker<S>)
  {
    forall s | s in b.sessions :: IdsInTurn(b.sessions[s])
  }

  lemma OneChanged<S>(b: Broker<S>, c: Broker<S>, s: S, d: Session)
    requires AllInTurn(b) && c.sessions == b.sessions[s := d] && IdsInTurn(d)
    ensures AllInTurn(c)
  {
  }

  lemma SentInTurn<S>(b: Broker<S>, s: S, p: Packet, qos: byte, now: int, c: Broker<S>)
    requires AllInTurn(b) && s in b.sessions && IsSent(b, s, p, qos, now, c)
    ensures AllInTurn(c)
  {
    if qos > 0 {
      DeliveryKeepsTurn(b.sessions[s], c.sessions[s], p.(header := p.header.(qos := qos)), now + 5000);
      OneChanged(b, c, s, c.sessions[s]);
    }
  }

  /** A delivery with the id that comes next. */
  lemma DeliveryKeepsTurn(d: Session, d': Session, q: Packet, due: int)
    requires IdsInTurn(d)
    requires d'.nextPacketId == if d.nextPacketId == 65535 then 1 else d.nextPacketId + 1
    requires d'.history == d.history + [Delivered(q, d'.nextPacketId, due)]
    ensures IdsInTurn(d')
  {
    NextIdInTurn(DeliveryCount(d.history));
    EventKeepsTurn(d, d', Delivered(q, d'.nextPacketId, due));
  }

  lemma {:induction false} RouteInTurn<S>(b: Broker<S>, p: Packet, ms: seq<Match<S>>, now: int)
    requires AllInTurn(b)
    ensures AllInTurn(Route(b, p, ms, now).b)
    decreases |ms|
  {
    if ms != [] {
      RouteInTurn(b, p, ms[..|ms| - 1], now);
      MatchInTurn(b, p, ms, now);
    }
  }

  lemma MatchInTurn<S>(b: Broker<S>, p: Packet, ms: seq<Match<S>>, now: int)
    requires ms != [] && AllInTurn(Route(b, p, ms[..|ms| - 1], now).b)
    ensures AllInTurn(Route(b, p, ms, now).b)
  {
    var n := |ms| - 1;
    var before, after, s := Route(b, p, ms[..n], now), Route(b, p, ms, now), ms[n].session;
    EachMatch(b, p, ms, n, now);
    assert ms[..n + 1] == ms;
    if Reaches(b, ms[n]) {
      SentInTurn(before.b, s, p, after.qos, now, after.b);
    } else if Live(b, s) {
      QueuedInTurn(before.b, s, p, before.qos, after.b);
    }
  }

  lemma QueuedInTurn<S>(b: Broker<S>, s: S, p: Packet, qos: byte, c: Broker<S>)
    requires AllInTurn(b) && s in b.sessions && IsQueued(b, s, p, qos, c)
    ensures AllInTurn(c)
  {
  }

  /** Sessions are unchanged, but for one that has seen an event which is no delivery. */
  lemma OneInTurn<S>(b: Broker<S>, c: Broker<S>, s: S, d: Session, e: Event)
    requires AllInTurn(b) && s in b.sessions && c.sessions == b.sessions[s := d] && !e.Delivered?
    requires d.nextPacketId == b.sessions[s].nextPacketId
    requires d.history == b.sessions[s].history || d.history == b.sessions[s].history + [e]
    ensures AllInTurn(c)
  {
    if d.history != b.sessions[s].history { EventKeepsTurn(b.sessions[s], d, e); }
  }

  lemma HeardInTurn<S>(b: Broker<S>, client: string, now: int)
    requires AllInTurn(b)
    ensures forall s | s in Heard(b, client, now) :: IdsInTurn(Heard(b, client, now)[s])
  {
  }

  lemma PublishInTurn<S>(b: Broker<S>, step: Step<S>, c: Broker<S>)
    requires RegistryOk(b) && AllInTurn(b) && step.DoPublish? && Effect(b, step, c)
    ensures AllInTurn(c)
  {
    if step.packet.header.qos < 2 {
      HeardInTurn(b, step.client, step.now);
      var heard := b.(clock := step.now, held := Some(step.t), sessions := Heard(b, step.client, step.now));
      RouteInTurn(heard, step.packet, step.matches, step.now);
    } else if step.client in b.registry {
      var s := b.registry[step.client];
      OneInTurn(b, c, s, c.sessions[s], GotPublish(step.packet));
    }
  }

  lemma PubrelInTurn<S>(b: Broker<S>, step: Step<S>, c: Broker<S>)
    requires RegistryOk(b) && AllInTurn(b) && step.DoPubrel? && Effect(b, step, c)
    ensures AllInTurn(c)
  {
    if step.client in b.registry {
      var s, id, now := b.registry[step.client], step.packetId, step.now;
      var d := b.sessions[s];
      var e := d.(lastActivity := now, inflight := d.inflight - {id}, history := d.history + [GotPubrel(id)]);
      if id !in d.inflight {
        OneInTurn(b, c, s, e, GotPubrel(id));
      } else {
        var heard := b.(clock := now, held := Some(step.t),
                        sessions := b.sessions[s := e.(routed := d.routed + [d.inflight[id]])]);
        OneInTurn(b, heard, s, heard.sessions[s], GotPubrel(id));
        RouteInTurn(heard, d.inflight[id], step.matches, now);
      }
    }
  }

  lemma AckInTurn<S>(b: Broker<S>, step: Step<S>, c: Broker<S>)
    requires RegistryOk(b) && AllInTurn(b) && Effect(b, step, c) && (step.DoPuback? || step.DoPubrec? || step.DoPubcomp?)
    ensures AllInTurn(c)
  {
    if step.client in b.registry {
      var s := b.registry[step.client];
      OneInTurn(b, c, s, c.sessions[s],
                if step.DoPuback? then GotPuback(step.packetId) else if step.DoPubrec? then GotPubrec(step.packetId)
                else GotPubcomp(step.packetId));
    }
  }

  lemma ConnectInTurn<S>(b: Broker<S>, step: Step<S>, c: Broker<S>)
    requires RegistryOk(b) && AllInTurn(b) && step.DoConnect? && Effect(b, step, c)
    ensures AllInTurn(c)
  {
    var r := step.request;
    if r.clientId in b.registry {
      var s := b.registry[r.clientId];
      OneInTurn(b, Vacated(b, r.clientId), s, b.sessions[s].(connected := false), Resumed);
      if !r.cleanSession { OneInTurn(b, c, s, c.sessions[s], Resumed); }
    }
  }

  lemma SimpleInTurn<S>(b: Broker<S>, step: Step<S>, c: Broker<S>)
    requires RegistryOk(b) && AllInTurn(b) && Effect(b, step, c)
    requires step.DoOpen? || step.DoClose? || step.DoBadFrame? || step.DoSubscribe? || step.DoPingreq?
    ensures AllInTurn(c)
  {
    if step.DoSubscribe? || step.DoPingreq? { HeardInTurn(b, step.client, step.now); }
  }

  lemma PassInTurn<S>(b: Broker<S>, step: Step<S>, c: Broker<S>)
    requires RegistryOk(b) && AllInTurn(b) && Effect(b, step, c) && step.DoRetransmit?
    ensures AllInTurn(c)
  {
    var p := b.sessions[step.entry.item.session].inflight[step.entry.item.packetId];
    RouteInTurn(b.(clock := step.now), p.(header := p.header.(dup := true)), step.matches, step.now);
  }

  lemma ExpireInTurn<S>(b: Broker<S>, order: seq<Timed<S>>, now: int)
    requires AllInTurn(b) && ExpiryOk(b) && b.clock <= now && DrainOrder(b, order, now)
    requires forall e | e in order :: e.item in b.sessions
    ensures AllInTurn(Expire(b, order, now))
  {
    var c := Expire(b, order, now);
    assert c.sessions.Keys == b.sessions.Keys;
    forall s | s in c.sessions ensures IdsInTurn(c.sessions[s]) {
      ExpireKeepsIds(b, order, now, s);
    }
  }

  lemma ExpireKeepsIds<S>(b: Broker<S>, order: seq<Timed<S>>, now: int, s: S)
    requires s in b.sessions && ExpiryOk(b) && b.clock <= now && DrainOrder(b, order, now)
    requires forall e | e in order :: e.item in b.sessions
    ensures var d, d' := b.sessions[s], Expire(b, order, now).sessions[s];
            d'.history == d.history && d'.nextPacketId == d.nextPacketId
  {
    ExpirePhases(b, order, now);
  }

  lemma StepInTurn<S>(b: Broker<S>, step: Step<S>)
    requires Inv(b) && AllInTurn(b) && Enabled(b, step)
    ensures AllInTurn(Next(b, step))
  {
    var c := Next(b, step);
    StepHasEffect(b, step);
    match step
    case DoPublish(_, _, _, _, _) => PublishInTurn(b, step, c);
    case DoPubrel(_, _, _, _, _) => PubrelInTurn(b, step, c);
    case DoPuback(_, _, _) => AckInTurn(b, step, c);
    case DoPubrec(_, _, _, _) => AckInTurn(b, step, c);
    case DoPubcomp(_, _, _) => AckInTurn(b, step, c);
    case DoConnect(_, _, _, _, _) => ConnectInTurn(b, step, c);
    case DoRetransmit(_, _, _, _) => PassInTurn(b, step, c);
    case DoExpire(order, now) => ExpireInTurn(b, order, now);
    case _ => SimpleInTurn(b, step, c);
  }

  /** Over every run: the ids that a session's deliveries get are 2, 3, and so on up to 65535, then 1, 2, and so on;
      never 0. */
  lemma {:induction false} IdsComeInTurn<S>(states: seq<Broker<S>>, steps: seq<Step<S>>, i: nat)
    requires Execution(states, steps) && i < |states|
    ensures AllInTurn(states[i])
    decreases i
  {
    if i > 0 {
      IdsComeInTurn(states, steps, i - 1);
      ExecutionStepInTurn(states, steps, i - 1);
      assert i - 1 + 1 == i;
    }
  }

  lemma ExecutionStepInTurn<S>(states: seq<Broker<S>>, steps: seq<Step<S>>, i: nat)
    requires Execution(states, steps) && i < |steps| && AllInTurn(states[i])
    ensures AllInTurn(states[i + 1])
  {
    ReachableStates(states, steps, i);
    StepInTurn(states[i], steps[i]);
  }

  /** So two deliveries to a session have the same id if and only if a multiple of 65535 lies between them. */
  lemma SameIdIff<S>(states: seq<Broker<S>>, steps: seq<Step<S>>, i: nat, s: S, j: nat, k: nat)
    requires Execution(states, steps) && i < |states| && s in states[i].sessions
    requires var h := states[i].sessions[s].history; j < k < |h| && h[j].Delivered? && h[k].Delivered?
    ensures var h := states[i].sessions[s].history;
            && h[j].retryId != 0 && DeliveryCount(h[..j]) < DeliveryCount(h[..k])
            && (h[j].retryId == h[k].retryId <==> (DeliveryCount(h[..k]) - DeliveryCount(h[..j])) % 65535 == 0)
  {
    var h := states[i].sessions[s].history;
    IdsComeInTurn(states, steps, i);
    CountGrows(h, j, k);
    assert EventInTurn(h, j) && EventInTurn(h, k);
    SameRemainder(DeliveryCount(h[..j]) + 1, DeliveryCount(h[..k]) + 1);
  }

  lemma {:induction false} CountGrows(h: seq<Event>, j: nat, k: nat)
    requires j < k <= |h| && h[j].Delivered?
    ensures DeliveryCount(h[..j]) < DeliveryCount(h[..k])
    decreases k
  {
    assert h[..k][..k - 1] == h[..k - 1];
    if j < k - 1 { CountGrows(h, j, k - 1); }
  }

  lemma SameRemainder(m: nat, n: nat)
    ensures m % 65535 == n % 65535 <==> (n - m) % 65535 == 0
  {
  }
}
