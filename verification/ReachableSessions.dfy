/** The QoS 2 and storage properties of every session in every run of the broker. */
module ReachableSessions {
  import opened Packets
  import opened Wrappers
  import opened InflightHistory
  import opened Sessions
  import opened BrokerModel
  import opened BrokerInvariants
  import opened KeepAlive
  import opened BrokerRuns

  /** The event that a step is for a session, if it is addressed to it. */
  ghost function EventsOf<S>(b: Broker<S>, step: Step<S>, s: S): seq<Event>
  {
    match step
    case DoPublish(_, client, p, _, _) =>
      if client in b.registry && b.registry[client] == s && p.header.qos >= 2 then [GotPublish(p)] else []
    case DoPuback(client, id, _) => if client in b.registry && b.registry[client] == s then [GotPuback(id)] else []
    case DoPubrec(_, client, id, _) => if client in b.registry && b.registry[client] == s then [GotPubrec(id)] else []
    case DoPubrel(_, client, id, _, _) => if client in b.registry && b.registry[client] == s then [GotPubrel(id)] else []
    case DoPubcomp(client, id, _) => if client in b.registry && b.registry[client] == s then [GotPubcomp(id)] else []
    case DoConnect(_, r, _, _, _) =>
      if r.clientId in b.registry && b.registry[r.clientId] == s && !r.cleanSession then [Resumed] else []
    case _ => []
  }

  /** `h2` is `h` and these events, followed by deliveries only. */
  ghost predicate Continues(h: seq<Event>, events: seq<Event>, h2: seq<Event>)
  {
    && |h2| >= |h| + |events| && h2[..|h| + |events|] == h + events
    && forall i | |h| + |events| <= i < |h2| :: h2[i].Delivered?
  }

  lemma ContinuesMore(h: seq<Event>, events: seq<Event>, h2: seq<Event>, h3: seq<Event>)
    requires Continues(h, events, h2) && Continues(h2, [], h3)
    ensures Continues(h, events, h3)
  {
    assert h2 == h2 + [] == h3[..|h2|];
  }

  lemma {:induction false} RouteAddsDeliveries<S>(b: Broker<S>, p: Packet, ms: seq<Match<S>>, now: int, s: S)
    requires s in b.sessions
    ensures var c := Route(b, p, ms, now).b;
            s in c.sessions && Continues(b.sessions[s].history, [], c.sessions[s].history)
            && c.sessions[s].routed == b.sessions[s].routed
    decreases |ms|
  {
    if ms != [] {
      var n := |ms| - 1;
      RouteAddsDeliveries(b, p, ms[..n], now, s);
      RouteIsQuiet(b, p, ms[..n], now);
      var r := Route(b, p, ms[..n], now);
      OneMatchDelivers(r.b, p, r.qos, ms[n], now, s);
      ContinuesMore(b.sessions[s].history, [], r.b.sessions[s].history, Route(b, p, ms, now).b.sessions[s].history);
    }
  }

  lemma OneMatchDelivers<S>(b: Broker<S>, p: Packet, qos: byte, m: Match<S>, now: int, s: S)
    requires s in b.sessions
    ensures var c := RouteOne(b, p, qos, m, now).b;
            s in c.sessions && Continues(b.sessions[s].history, [], c.sessions[s].history)
            && c.sessions[s].routed == b.sessions[s].routed
  {
    if Live(b, m.session) && m.session == s && b.sessions[s].connected {
      SendDelivers(b, WithQos(p, Min(qos, m.qos)), now, s);
    }
  }

  lemma SendDelivers<S>(b: Broker<S>, p: Packet, now: int, s: S)
    requires s in b.sessions
    ensures var d := Send(b, s, p, now).sessions[s];
            d.history == b.sessions[s].history
                         + (if p.header.qos > 0 then [Delivered(p, b.sessions[s].NextId(), now + RETRY_INTERVAL_MS)] else [])
            && d.routed == b.sessions[s].routed
  {
  }

  // ---------------------------------------------------------------- histories record the run

  lemma PublishRecords<S>(b: Broker<S>, t: nat, client: string, p: Packet, ms: seq<Match<S>>, now: int, s: S)
    requires RegistryOk(b) && s in b.sessions
    ensures var c := HandlePublish(b, t, client, p, ms, now);
            s in c.sessions
            && Continues(b.sessions[s].history, EventsOf(b, DoPublish(t, client, p, ms, now), s), c.sessions[s].history)
  {
    if p.header.qos < 2 {
      RouteAddsDeliveries(Touch(b, client, now), p, ms, now, s);
    } else {
      StoreRecords(b, t, client, p, ms, now, s);
    }
  }

  lemma StoreRecords<S>(b: Broker<S>, t: nat, client: string, p: Packet, ms: seq<Match<S>>, now: int, s: S)
    requires RegistryOk(b) && s in b.sessions && p.header.qos >= 2
    ensures var c := HandlePublish(b, t, client, p, ms, now);
            s in c.sessions
            && c.sessions[s].history == b.sessions[s].history + EventsOf(b, DoPublish(t, client, p, ms, now), s)
  {
  }

  lemma PubrelRecords<S>(b: Broker<S>, t: nat, client: string, id: uint16, ms: seq<Match<S>>, now: int, s: S)
    requires RegistryOk(b) && s in b.sessions
    ensures var c := HandlePubrel(b, t, client, id, ms, now);
            s in c.sessions
            && Continues(b.sessions[s].history, EventsOf(b, DoPubrel(t, client, id, ms, now), s), c.sessions[s].history)
  {
    if Known(b, client) {
      var c := Touch(b, client, now);
      var x := c.registry[client];
      var taken := With(c, x, Released(c.sessions[x], id));
      assert Continues(b.sessions[s].history, EventsOf(b, DoPubrel(t, client, id, ms, now), s), taken.sessions[s].history);
      if id in c.sessions[x].inflight {
        var r := Route(taken, c.sessions[x].inflight[id], ms, now).b;
        RouteAddsDeliveries(taken, c.sessions[x].inflight[id], ms, now, s);
        ContinuesMore(b.sessions[s].history, EventsOf(b, DoPubrel(t, client, id, ms, now), s),
                      taken.sessions[s].history, r.sessions[s].history);
      }
    }
  }

  lemma ConnectRecords<S>(b: Broker<S>, t: nat, r: ConnectRequest, newcomer: S, order: ResendOrder, now: int, s: S)
    requires RegistryOk(b) && s in b.sessions && (Registers(b, r) ==> newcomer !in b.sessions)
    ensures var c := HandleConnect(b, t, r, newcomer, order, now);
            s in c.sessions
            && c.sessions[s].history == b.sessions[s].history + EventsOf(b, DoConnect(t, r, newcomer, order, now), s)
  {
    ConnectChanges(b, t, r, newcomer, order, now);
  }

  lemma RetransmitRecords<S>(b: Broker<S>, e: Timed<Retry<S>>, ms: seq<Match<S>>, now: int, s: S)
    requires e.item.session in b.sessions && s in b.sessions
    ensures var c := Retransmit(b, e, ms, now);
            s in c.sessions && Continues(b.sessions[s].history, [], c.sessions[s].history)
  {
    var p := StoredPacket(b.sessions[e.item.session], e.item.packetId, e.item.packetType);
    RouteAddsDeliveries(b.(clock := now), WithDup(p), ms, now, s);
  }

  lemma ExpireRecords<S>(b: Broker<S>, order: seq<Timed<S>>, now: int, s: S)
    requires ExpiryOk(b) && DrainOrder(b, order, now) && b.clock <= now && s in b.sessions
    requires forall e | e in order :: e.item in b.sessions
    ensures var c := Expire(b, order, now); s in c.sessions && c.sessions[s].history == b.sessions[s].history
  {
    ExpirePhases(b, order, now);
  }

  lemma SimpleStepRecords<S>(b: Broker<S>, step: Step<S>, s: S)
    requires RegistryOk(b) && Enabled(b, step) && s in b.sessions
    requires step.DoOpen? || step.DoClose? || step.DoBadFrame? || step.DoSubscribe? || step.DoPingreq?
    ensures var c := Next(b, step); s in c.sessions && c.sessions[s].history == b.sessions[s].history
  {
  }

  lemma AckRecords<S>(b: Broker<S>, t: nat, client: string, id: uint16, now: int, s: S)
    requires RegistryOk(b) && s in b.sessions
    ensures s in HandlePuback(b, client, id, now).sessions && HandlePuback(b, client, id, now).sessions[s].history
            == b.sessions[s].history + EventsOf(b, DoPuback(client, id, now), s)
    ensures s in HandlePubrec(b, t, client, id, now).sessions && HandlePubrec(b, t, client, id, now).sessions[s].history
            == b.sessions[s].history + EventsOf(b, DoPubrec(t, client, id, now), s)
    ensures s in HandlePubcomp(b, client, id, now).sessions && HandlePubcomp(b, client, id, now).sessions[s].history
            == b.sessions[s].history + EventsOf(b, DoPubcomp(client, id, now), s)
  {
  }

  lemma HoldingIsNoEvent<S>(b: Broker<S>, t: nat, step: Step<S>, s: S)
    ensures EventsOf(Hold(b, t), step, s) == EventsOf(b, step, s)
  {
  }

  lemma HeldStepRecords<S>(b: Broker<S>, step: Step<S>, s: S)
    requires RegistryOk(b) && Enabled(b, step) && s in b.sessions
    requires step.DoConnect? || step.DoPublish? || step.DoPubrel?
    ensures var c := Next(b, step);
            s in c.sessions && Continues(b.sessions[s].history, EventsOf(b, step, s), c.sessions[s].history)
  {
    HoldingIsNoEvent(b, step.t, step, s);
    match step
    case DoPublish(t, client, p, ms, now) => PublishRecords(Hold(b, t), t, client, p, ms, now, s);
    case DoPubrel(t, client, id, ms, now) => PubrelRecords(Hold(b, t), t, client, id, ms, now, s);
    case DoConnect(t, r, newcomer, order, now) => ConnectRecords(Hold(b, t), t, r, newcomer, order, now, s);
  }

  /** Every step appends to a session's history exactly the event addressed to it, and then only
      deliveries; sessions never disappear. */
  lemma StepRecords<S>(b: Broker<S>, step: Step<S>, s: S)
    requires RegistryOk(b) && ExpiryOk(b) && Enabled(b, step) && s in b.sessions
    ensures var c := Next(b, step);
            s in c.sessions && Continues(b.sessions[s].history, EventsOf(b, step, s), c.sessions[s].history)
  {
    match step
    case DoPublish(_, _, _, _, _) => HeldStepRecords(b, step, s);
    case DoPubrel(_, _, _, _, _) => HeldStepRecords(b, step, s);
    case DoConnect(_, _, _, _, _) => HeldStepRecords(b, step, s);
    case DoExpire(order, now) => ExpireRecords(b, order, now, s);
    case DoRetransmit(e, _, ms, now) => RetransmitRecords(b, e, ms, now, s);
    case DoPuback(client, id, now) => AckRecords(b, 0, client, id, now, s);
    case DoPubrec(t, client, id, now) => AckRecords(b, t, client, id, now, s);
    case DoPubcomp(client, id, now) => AckRecords(b, 0, client, id, now, s);
    case _ => SimpleStepRecords(b, step, s);
  }

  lemma OthersRegisterNobody<S>(b: Broker<S>, step: Step<S>)
    requires KeepAliveInv(b) && Enabled(b, step) && !step.DoConnect?
    ensures Next(b, step).sessions.Keys == b.sessions.Keys
  {
    match step
    case DoOpen =>
    case DoClose(t) =>
    case DoBadFrame(t, client) =>
    case DoExpire(order, now) => ExpirePhases(b, order, now);
    case _ => QuietStep(b, step);
  }

  /** A session that a step brings into being is the one its CONNECT registers. */
  lemma Newborn<S>(b: Broker<S>, step: Step<S>, s: S)
    requires KeepAliveInv(b) && Enabled(b, step) && s !in b.sessions && s in Next(b, step).sessions
    ensures step.DoConnect? && Next(b, step).sessions[s].history == []
    ensures Next(b, step).sessions[s].transport == Some(step.t) && s == step.newcomer
  {
    if !step.DoConnect? {
      OthersRegisterNobody(b, step);
    } else {
      NewbornOfConnect(Hold(b, step.t), step.t, step.request, step.newcomer, step.resend, step.now, s);
    }
  }

  lemma NewbornOfConnect<S>(b: Broker<S>, t: nat, r: ConnectRequest, newcomer: S, order: ResendOrder, now: int, s: S)
    requires RegistryOk(b) && s !in b.sessions
    ensures var c := HandleConnect(b, t, r, newcomer, order, now);
            s in c.sessions ==> s == newcomer && c.sessions[s].history == [] && c.sessions[s].transport == Some(t)
  {
    TakeOverFades(b.(clock := now), r);
  }

  /** One step of an execution. */
  lemma ExecutionStepRecords<S>(states: seq<Broker<S>>, steps: seq<Step<S>>, i: nat, s: S)
    requires Execution(states, steps) && i < |steps| && s in states[i].sessions
    ensures s in states[i + 1].sessions
    ensures Continues(states[i].sessions[s].history, EventsOf(states[i], steps[i], s), states[i + 1].sessions[s].history)
  {
    ReachableStates(states, steps, i);
    StepRecords(states[i], steps[i], s);
  }

  lemma ContinuesIsPrefix(h: seq<Event>, events: seq<Event>, h2: seq<Event>)
    requires Continues(h, events, h2)
    ensures h <= h2
  {
    assert h == (h + events)[..|h|] == h2[..|h|];
  }

  /** A session's history at one time is a beginning of its history at any later time, so what has
      been accepted, released or routed stays so. */
  lemma {:induction false} HistoriesOnlyGrow<S>(states: seq<Broker<S>>, steps: seq<Step<S>>, i: nat, j: nat, s: S)
    requires Execution(states, steps) && i <= j < |states| && s in states[i].sessions
    ensures s in states[j].sessions && states[i].sessions[s].history <= states[j].sessions[s].history
    decreases j - i
  {
    if i < j {
      HistoriesOnlyGrow(states, steps, i, j - 1, s);
      ExecutionStepRecords(states, steps, j - 1, s);
      ContinuesIsPrefix(states[j - 1].sessions[s].history, EventsOf(states[j - 1], steps[j - 1], s),
                        states[j].sessions[s].history);
    }
  }

  // ---------------------------------------------------------------- what holds of every session, always

  /** In every reachable state, of every session: the inflight map holds exactly the packets whose
      acceptance has not been released or acknowledged, each a PUBLISH under its own id with nonzero
      length; the second map holds exactly the ids whose latest PUBREC or PUBCOMP was a PUBREC, each a
      four-byte PUBREL; and acceptances are conserved. */
  lemma EverySession<S>(states: seq<Broker<S>>, steps: seq<Step<S>>, i: nat, s: S)
    requires Execution(states, steps) && i < |states| && s in states[i].sessions
    ensures var d := states[i].sessions[s];
            && (forall n: uint16 :: n in d.inflight <==> exists j: nat :: Holder(d.history, n, j))
            && (forall n: uint16, j: nat | Holder(d.history, n, j) ::
                  n in d.inflight && d.inflight[n] == d.history[j].packet)
            && (forall n | n in d.inflight :: IsPublish(d.inflight[n]) && IdOf(d.inflight[n]) == n)
            && (forall n | n in d.inflightAck :: d.inflightAck[n] == PubrelFor(n))
            && (forall n: uint16 :: n in d.inflightAck <==> exists j: nat :: LatestIsPubrec(d.history, n, j))
            && AcceptedCount(d.history) == |d.routed| + AckedCount(d.history) + |d.inflight|
  {
    ReachableStates(states, steps, i);
    var d := states[i].sessions[s];
    assert HistoryOk(d);
    StoredPackets(d.history);
    AcceptancesAreConserved(d.history);
    forall n: uint16 ensures n in d.inflight <==> exists j: nat :: Holder(d.history, n, j) {
      HeldIffHolder(d.history, n);
    }
    forall n: uint16, j: nat | Holder(d.history, n, j) ensures n in d.inflight && d.inflight[n] == d.history[j].packet {
      HeldIffHolder(d.history, n);
    }
    forall n: uint16 ensures n in d.inflightAck <==> exists j: nat :: LatestIsPubrec(d.history, n, j) {
      AckedIffLatestIsPubrec(d.history, n);
    }
  }

  /** Event `r` of `h`, a PUBREL, has routed what it should: if the id was held, the packet of the one
      acceptance it releases, which no other PUBREL of the history releases; otherwise nothing.
      `inflight` and `routed` are the session's before the PUBREL, `routed2` its list after. */
  ghost predicate RoutedOnce(h: seq<Event>, r: nat, inflight: map<uint16, Packet>, routed: seq<Packet>, routed2: seq<Packet>)
  {
    && r < |h| && h[r].GotPubrel?
    && if h[r].id in inflight
       then routed2 == routed + [inflight[h[r].id]] && exists j: nat :: ReleasedOnlyBy(h, r, j, inflight[h[r].id])
       else routed2 == routed
  }

  ghost predicate ReleasedOnlyBy(h: seq<Event>, r: nat, j: nat, p: Packet)
  {
    && Releases(h, r, j) && h[j].packet == p
    && (forall x: nat | Releases(h, x, j) :: x == r)
    && (forall y: nat | Releases(h, r, y) :: y == j)
  }

  /** QoS 2, over every run: a PUBREL step routes the packet of exactly one accepted PUBLISH (or
      delivery) event of the session, and no other PUBREL in the session's whole history, up to any
      later state `k`, releases that event again. A PUBREL whose id is not held routes nothing. */
  lemma PubrelRoutesExactlyOnce<S>(states: seq<Broker<S>>, steps: seq<Step<S>>, i: nat, k: nat, s: S)
    requires Execution(states, steps) && i < |steps| && i < k < |states| && steps[i].DoPubrel?
    requires s in states[i].sessions
    requires steps[i].client in states[i].registry && states[i].registry[steps[i].client] == s
    ensures s in states[i + 1].sessions && s in states[k].sessions
    ensures var d := states[i].sessions[s];
            var h, r := states[k].sessions[s].history, |d.history|;
            && r < |h| && h[..r] == d.history && h[r] == GotPubrel(steps[i].packetId)
            && RoutedOnce(h, r, d.inflight, d.routed, states[i + 1].sessions[s].routed)
  {
    var d, id := states[i].sessions[s], steps[i].packetId;
    ExecutionStepRecords(states, steps, i, s);
    HistoriesOnlyGrow(states, steps, i + 1, k, s);
    var h, h1 := states[k].sessions[s].history, states[i + 1].sessions[s].history;
    assert EventsOf(states[i], steps[i], s) == [GotPubrel(id)];
    HistoriesAgree(states, steps, i, s);
    HistoriesAgree(states, steps, i + 1, s);
    PubrelRoutesWithin(d.history, id, h1, h);
  }

  lemma HistoriesAgree<S>(states: seq<Broker<S>>, steps: seq<Step<S>>, i: nat, s: S)
    requires Execution(states, steps) && i < |states| && s in states[i].sessions
    ensures HistoryOk(states[i].sessions[s])
  {
    ReachableStates(states, steps, i);
  }

  lemma PubrelRoutesWithin(h0: seq<Event>, id: uint16, h1: seq<Event>, h: seq<Event>)
    requires Continues(h0, [GotPubrel(id)], h1) && h1 <= h
    ensures |h0| < |h| && h[..|h0|] == h0 && h[|h0|] == GotPubrel(id)
    ensures RoutedOnce(h, |h0|, Replay(h0).inflight, Replay(h0).routed, Replay(h1).routed)
  {
    var r := |h0|;
    assert h1[..r + 1] == h0 + [GotPubrel(id)];
    assert h1[r] == (h0 + [GotPubrel(id)])[r];
    assert h[..r + 1] == h1[..r + 1];
    assert h[..r] == (h0 + [GotPubrel(id)])[..r] == h0;
    RoutedIsStable(h1, r + 1);
    PubrelReleasesHolder(h, r);
  }

  /** Deliveries do not touch the list of routed packets. */
  lemma {:induction false} RoutedIsStable(h: seq<Event>, n: nat)
    requires n <= |h| && forall i | n <= i < |h| :: h[i].Delivered?
    ensures Replay(h).routed == Replay(h[..n]).routed
    decreases |h|
  {
    if n < |h| {
      RoutedIsStable(h[..|h| - 1], n);
      assert h[..|h| - 1][..n] == h[..n];
    } else {
      assert h[..n] == h;
    }
  }

  lemma PubrelReleasesHolder(h: seq<Event>, r: nat)
    requires r < |h| && h[r].GotPubrel?
    ensures RoutedOnce(h, r, Replay(h[..r]).inflight, Replay(h[..r]).routed, Replay(h[..r + 1]).routed)
  {
    var f, id := Replay(h[..r]), h[r].id;
    ReplayNext(h, r);
    if id in f.inflight {
      HeldIffHolder(h[..r], id);
      var j: nat :| Holder(h[..r], id, j);
      AcceptedHolds(h, r, id, j);
      ExactlyOnce(h, j, r);
      assert ReleasedOnlyBy(h, r, j, f.inflight[id]);
    }
  }
}
