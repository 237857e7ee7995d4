/** What becomes of a session object over a run: its transport, its registration, its connection. */
module SessionFates {
  import opened Packets
  import opened Sessions
  import opened BrokerModel
  import opened BrokerInvariants
  import opened KeepAlive
  import opened BrokerRuns
  import opened ReachableSessions

  // ---------------------------------------------------------------- its transport

  lemma TransportIsKept<S>(b: Broker<S>, step: Step<S>, s: S)
    requires KeepAliveInv(b) && Enabled(b, step) && s in b.sessions
    ensures s in Next(b, step).sessions && Next(b, step).sessions[s].transport == b.sessions[s].transport
  {
    match step
    case DoOpen =>
    case DoClose(t) =>
    case DoBadFrame(t, client) =>
    case DoConnect(t, r, newcomer, order, now) => ConnectKeepsTransport(Hold(b, t), t, r, newcomer, order, now, s);
    case DoExpire(order, now) => ExpireKeepsSession(b, order, now, s);
    case _ => QuietStep(b, step);
  }

  lemma ExpireKeepsSession<S>(b: Broker<S>, order: seq<Timed<S>>, now: int, s: S)
    requires ExpiryOk(b) && DrainOrder(b, order, now) && b.clock <= now && s in b.sessions
    requires forall e | e in order :: e.item in b.sessions
    ensures var c := Expire(b, order, now);
            && s in c.sessions && c.sessions[s].transport == b.sessions[s].transport
            && c.sessions[s].messageQueue == b.sessions[s].messageQueue && c.sessions[s].history == b.sessions[s].history
            && (c.sessions[s].connected ==> b.sessions[s].connected)
  {
    ExpirePhases(b, order, now);
  }

  lemma ConnectKeepsTransport<S>(b: Broker<S>, t: nat, r: ConnectRequest, newcomer: S, order: ResendOrder, now: int, s: S)
    requires RegistryOk(b) && s in b.sessions && (Registers(b, r) ==> newcomer !in b.sessions)
    ensures var c := HandleConnect(b, t, r, newcomer, order, now);
            s in c.sessions && c.sessions[s].transport == b.sessions[s].transport
  {
    ConnectChanges(b, t, r, newcomer, order, now);
  }

  /** The CONNECT at step `j` brought the session into being, over that transport. */
  ghost predicate BornAt<S>(states: seq<Broker<S>>, steps: seq<Step<S>>, j: nat, s: S, t: nat)
  {
    && j < |steps| && steps[j].DoConnect? && steps[j].t == t && steps[j].newcomer == s
    && j + 1 < |states| && s !in states[j].sessions && s in states[j + 1].sessions
  }

  lemma {:induction false} EverySessionWasBorn<S>(states: seq<Broker<S>>, steps: seq<Step<S>>, i: nat, s: S)
    requires Execution(states, steps) && i < |states| && s in states[i].sessions
    ensures states[i].sessions[s].transport.Some?
    ensures exists j: nat :: j < i && BornAt(states, steps, j, s, states[i].sessions[s].transport.value)
    decreases i
  {
    if i > 0 {
      BornOrThere(states, steps, i - 1, s);
      if s in states[i - 1].sessions { EverySessionWasBorn(states, steps, i - 1, s); }
    }
  }

  lemma BornOrThere<S>(states: seq<Broker<S>>, steps: seq<Step<S>>, i: nat, s: S)
    requires Execution(states, steps) && i < |steps| && s in states[i + 1].sessions
    ensures if s in states[i].sessions then states[i + 1].sessions[s].transport == states[i].sessions[s].transport
            else states[i + 1].sessions[s].transport.Some?
                 && BornAt(states, steps, i, s, states[i + 1].sessions[s].transport.value)
  {
    ReachableStates(states, steps, i);
    if s in states[i].sessions {
      TransportIsKept(states[i], steps[i], s);
    } else {
      Newborn(states[i], steps[i], s);
    }
  }

  /** No transport carries more than one CONNECT (section 3.1 of MQTT 3.1.1). */
  ghost predicate OneConnectEach<S>(steps: seq<Step<S>>)
  {
    forall i, j | 0 <= i < j < |steps| && steps[i].DoConnect? && steps[j].DoConnect? :: steps[i].t != steps[j].t
  }

  lemma NoSharedTransport<S>(states: seq<Broker<S>>, steps: seq<Step<S>>, i: nat, x: S, y: S)
    requires Execution(states, steps) && OneConnectEach(steps) && i < |states|
    requires x in states[i].sessions && y in states[i].sessions && x != y
    ensures states[i].sessions[x].transport != states[i].sessions[y].transport
  {
    EverySessionWasBorn(states, steps, i, x);
    EverySessionWasBorn(states, steps, i, y);
    var t, u := states[i].sessions[x].transport.value, states[i].sessions[y].transport.value;
    var j: nat :| j < i && BornAt(states, steps, j, x, t);
    var k: nat :| k < i && BornAt(states, steps, k, y, u);
  }

  /** Over every run with at most one CONNECT on each transport, an expiry pass leaves every registered
      session whose deadline is still ahead on its live transport. */
  lemma NoLiveSessionIsCutOff<S>(states: seq<Broker<S>>, steps: seq<Step<S>>, i: nat, s: S)
    requires Execution(states, steps) && OneConnectEach(steps) && i < |steps| && steps[i].DoExpire?
    requires s in states[i].sessions && Live(states[i], s) && Online(states[i], s)
    requires states[i].sessions[s].Deadline() > steps[i].now
    ensures s in states[i + 1].sessions && Live(states[i + 1], s) && Online(states[i + 1], s)
  {
    NobodySharesWith(states, steps, i, s);
    ExecutionStepSpares(states, steps, i, s);
  }

  /** The session shares its transport with no other. */
  ghost predicate Lonely<S>(b: Broker<S>, s: S)
    requires s in b.sessions
  {
    forall x | x in b.sessions && x != s :: b.sessions[x].transport != b.sessions[s].transport
  }

  lemma NobodySharesWith<S>(states: seq<Broker<S>>, steps: seq<Step<S>>, i: nat, s: S)
    requires Execution(states, steps) && OneConnectEach(steps) && i < |states| && s in states[i].sessions
    ensures Lonely(states[i], s)
  {
    forall x | x in states[i].sessions && x != s
      ensures states[i].sessions[x].transport != states[i].sessions[s].transport
    {
      NoSharedTransport(states, steps, i, x, s);
    }
  }

  lemma ExecutionStepSpares<S>(states: seq<Broker<S>>, steps: seq<Step<S>>, i: nat, s: S)
    requires Execution(states, steps) && i < |steps| && steps[i].DoExpire?
    requires s in states[i].sessions && Live(states[i], s) && Online(states[i], s) && Lonely(states[i], s)
    requires states[i].sessions[s].Deadline() > steps[i].now
    ensures s in states[i + 1].sessions && Live(states[i + 1], s) && Online(states[i + 1], s)
  {
    ReachableStates(states, steps, i);
    LonelySessionIsSpared(states[i], steps[i].order, steps[i].now, s);
    assert states[i + 1] == Next(states[i], DoExpire(steps[i].order, steps[i].now));
  }

  /** An expiry pass spares a session with time left that is alone on its transport. */
  lemma LonelySessionIsSpared<S>(b: Broker<S>, order: seq<Timed<S>>, now: int, s: S)
    requires KeepAliveInv(b) && Enabled(b, DoExpire(order, now)) && s in b.sessions && Live(b, s) && Online(b, s)
    requires b.sessions[s].Deadline() > now && Lonely(b, s)
    ensures var c := Expire(b, order, now); s in c.sessions && Live(c, s) && Online(c, s)
  {
    KeepAliveSpares(b, order, now, s);
    OverdueAre(b, order, now);
  }

  // ---------------------------------------------------------------- its registration

  lemma FreedByFading<S>(b: Broker<S>, c: Broker<S>, s: S)
    requires Fading(b, c) && s in b.sessions && !Live(b, s)
    ensures s in c.sessions && !Live(c, s)
  {
  }

  lemma FreedConnect<S>(b: Broker<S>, t: nat, r: ConnectRequest, newcomer: S, order: ResendOrder, now: int, s: S)
    requires RegistryOk(b) && s in b.sessions && !Live(b, s) && (Registers(b, r) ==> newcomer !in b.sessions)
    ensures var c := HandleConnect(b, t, r, newcomer, order, now); s in c.sessions && !Live(c, s)
    ensures forall e | e in b.expiry :: e in HandleConnect(b, t, r, newcomer, order, now).expiry
  {
    ConnectChanges(b, t, r, newcomer, order, now);
  }

  /** A session that has been freed is never registered again. */
  lemma FreedStaysFreed<S>(b: Broker<S>, step: Step<S>, s: S)
    requires KeepAliveInv(b) && Enabled(b, step) && s in b.sessions && !Live(b, s)
    ensures s in Next(b, step).sessions && !Live(Next(b, step), s)
  {
    match step
    case DoOpen =>
    case DoClose(t) =>
    case DoBadFrame(t, client) => FreedByFading(b, Next(b, step), s);
    case DoConnect(t, r, newcomer, order, now) => FreedConnect(Hold(b, t), t, r, newcomer, order, now, s);
    case DoExpire(order, now) => FreedExpire(b, order, now, s);
    case _ => QuietStep(b, step);
  }

  lemma FreedExpire<S>(b: Broker<S>, order: seq<Timed<S>>, now: int, s: S)
    requires ExpiryOk(b) && DrainOrder(b, order, now) && b.clock <= now && s in b.sessions && !Live(b, s)
    requires forall e | e in order :: e.item in b.sessions
    ensures var c := Expire(b, order, now); s in c.sessions && !Live(c, s)
  {
    ExpirePhases(b, order, now);
    var popped := b.(clock := now, expiry := b.expiry - multiset(order));
    FreedByFading(popped, DisconnectAll(popped, Overdue(b, order, now)), s);
  }

  lemma ExecutionStepKeepsFreed<S>(states: seq<Broker<S>>, steps: seq<Step<S>>, i: nat, s: S)
    requires Execution(states, steps) && i < |steps| && s in states[i].sessions && !Live(states[i], s)
    ensures s in states[i + 1].sessions && !Live(states[i + 1], s)
  {
    ReachableStates(states, steps, i);
    FreedStaysFreed(states[i], steps[i], s);
  }

  lemma {:induction false} FreedForever<S>(states: seq<Broker<S>>, steps: seq<Step<S>>, i: nat, j: nat, s: S)
    requires Execution(states, steps) && i <= j < |states| && s in states[i].sessions && !Live(states[i], s)
    ensures s in states[j].sessions && !Live(states[j], s)
    decreases j - i
  {
    if i < j {
      FreedForever(states, steps, i, j - 1, s);
      ExecutionStepKeepsFreed(states, steps, j - 1, s);
      assert j - 1 + 1 == j;
    }
  }

  lemma DeadEntryStays<S>(b: Broker<S>, step: Step<S>, e: Timed<S>)
    requires KeepAliveInv(b) && Enabled(b, step) && e in b.expiry && !Live(b, e.item)
    ensures e in Next(b, step).expiry && !Live(Next(b, step), e.item)
    ensures step.DoExpire? ==> step.now < e.key
  {
    FreedStaysFreed(b, step, e.item);
    match step
    case DoOpen =>
    case DoClose(t) =>
    case DoBadFrame(t, client) =>
    case DoConnect(t, r, newcomer, order, now) => FreedConnect(Hold(b, t), t, r, newcomer, order, now, e.item);
    case DoExpire(order, now) =>
      DrainedOnce(b, order, now);
      UndueEntriesStay(b, order, now);
    case _ => QuietStep(b, step);
  }

  lemma ExecutionStepKeepsDead<S>(states: seq<Broker<S>>, steps: seq<Step<S>>, i: nat, e: Timed<S>)
    requires Execution(states, steps) && i < |steps| && Dead(states[i], e)
    ensures Dead(states[i + 1], e)
    ensures steps[i].DoExpire? ==> steps[i].now < e.key
  {
    ReachableStates(states, steps, i);
    DeadEntryStays(states[i], steps[i], e);
  }

  ghost predicate Dead<S>(b: Broker<S>, e: Timed<S>)
  {
    e in b.expiry && !Live(b, e.item)
  }

  /** A dead entry stays in the heap in every later state. */
  lemma {:induction false} DeadEntryIsForever<S>(states: seq<Broker<S>>, steps: seq<Step<S>>, i: nat, j: nat, e: Timed<S>)
    requires Execution(states, steps) && i <= j < |states| && Dead(states[i], e)
    ensures Dead(states[j], e)
    decreases j - i
  {
    if i < j {
      DeadEntryIsForever(states, steps, i, j - 1, e);
      ExecutionStepKeepsDead(states, steps, j - 1, e);
      assert j - 1 + 1 == j;
    }
  }

  /** So no expiry pass at or after its key ever comes to an end: every one hangs. */
  lemma LaterPassesHang<S>(states: seq<Broker<S>>, steps: seq<Step<S>>, i: nat, j: nat, e: Timed<S>)
    requires Execution(states, steps) && i <= j < |steps| && Dead(states[i], e) && steps[j].DoExpire?
    ensures steps[j].now < e.key
  {
    DeadEntryIsForever(states, steps, i, j, e);
    ExecutionStepKeepsDead(states, steps, j, e);
  }

  // ---------------------------------------------------------------- its connection

  /** Not connected, with all that was queued still queued, and nothing delivered in between. */
  ghost predicate Waits(d: Session, d': Session)
  {
    && !d'.connected && d.messageQueue <= d'.messageQueue && d.history <= d'.history
    && forall k | |d.history| <= k < |d'.history| :: !d'.history[k].Delivered?
  }

  lemma WaitsOn(a: Session, b: Session, c: Session)
    requires Waits(a, b) && Waits(b, c)
    ensures Waits(a, c)
  {
    forall k | |a.history| <= k < |c.history| ensures !c.history[k].Delivered? {
      if k < |b.history| { assert c.history[k] == b.history[k]; }
    }
  }

  lemma OneMatchWaits<S>(b: Broker<S>, p: Packet, qos: byte, m: Match<S>, now: int, s: S)
    requires s in b.sessions && !b.sessions[s].connected
    ensures var c := RouteOne(b, p, qos, m, now).b; s in c.sessions && Waits(b.sessions[s], c.sessions[s])
  {
  }

  lemma {:induction false} RouteWaits<S>(b: Broker<S>, p: Packet, ms: seq<Match<S>>, now: int, s: S)
    requires s in b.sessions && !b.sessions[s].connected
    ensures var c := Route(b, p, ms, now).b; s in c.sessions && Waits(b.sessions[s], c.sessions[s])
    decreases |ms|
  {
    if ms != [] {
      var r, m := Route(b, p, ms[..|ms| - 1], now), ms[|ms| - 1];
      RouteWaits(b, p, ms[..|ms| - 1], now, s);
      OneMatchWaits(r.b, p, r.qos, m, now, s);
      WaitsOn(b.sessions[s], r.b.sessions[s], RouteOne(r.b, p, r.qos, m, now).b.sessions[s]);
    }
  }

  lemma PublishWaits<S>(b: Broker<S>, t: nat, client: string, p: Packet, ms: seq<Match<S>>, now: int, s: S)
    requires s in b.sessions && !b.sessions[s].connected
    ensures var c := HandlePublish(b, t, client, p, ms, now); s in c.sessions && Waits(b.sessions[s], c.sessions[s])
  {
    var c := Touch(b, client, now);
    RouteWaits(c, p, ms, now, s);
    assert Waits(b.sessions[s], c.sessions[s]);
    if p.header.qos < 2 { WaitsOn(b.sessions[s], c.sessions[s], Route(c, p, ms, now).b.sessions[s]); }
  }

  lemma PubrelWaits<S>(b: Broker<S>, t: nat, client: string, id: uint16, ms: seq<Match<S>>, now: int, s: S)
    requires s in b.sessions && !b.sessions[s].connected
    ensures var c := HandlePubrel(b, t, client, id, ms, now); s in c.sessions && Waits(b.sessions[s], c.sessions[s])
  {
    if Known(b, client) {
      var c, x := Touch(b, client, now), b.registry[client];
      var taken := With(c, x, Released(c.sessions[x], id));
      assert Waits(b.sessions[s], taken.sessions[s]);
      if id in c.sessions[x].inflight {
        RouteWaits(taken, c.sessions[x].inflight[id], ms, now, s);
        WaitsOn(b.sessions[s], taken.sessions[s], Route(taken, c.sessions[x].inflight[id], ms, now).b.sessions[s]);
      }
    }
  }

  lemma AcksWait<S>(b: Broker<S>, t: nat, client: string, id: uint16, now: int, s: S)
    requires s in b.sessions && !b.sessions[s].connected
    ensures s in HandlePuback(b, client, id, now).sessions
            && Waits(b.sessions[s], HandlePuback(b, client, id, now).sessions[s])
    ensures s in HandlePubrec(b, t, client, id, now).sessions
            && Waits(b.sessions[s], HandlePubrec(b, t, client, id, now).sessions[s])
    ensures s in HandlePubcomp(b, client, id, now).sessions
            && Waits(b.sessions[s], HandlePubcomp(b, client, id, now).sessions[s])
  {
  }

  lemma ConnectWaits<S>(b: Broker<S>, t: nat, r: ConnectRequest, newcomer: S, order: ResendOrder, now: int, s: S)
    requires RegistryOk(b) && s in b.sessions && !b.sessions[s].connected && (Registers(b, r) ==> newcomer !in b.sessions)
    ensures var c := HandleConnect(b, t, r, newcomer, order, now); s in c.sessions && Waits(b.sessions[s], c.sessions[s])
  {
    ConnectChanges(b, t, r, newcomer, order, now);
  }

  lemma StepWaits<S>(b: Broker<S>, step: Step<S>, s: S)
    requires KeepAliveInv(b) && Enabled(b, step) && s in b.sessions && !b.sessions[s].connected
    ensures s in Next(b, step).sessions && Waits(b.sessions[s], Next(b, step).sessions[s])
  {
    match step
    case DoOpen =>
    case DoClose(t) =>
    case DoBadFrame(t, client) =>
    case DoConnect(t, r, newcomer, order, now) => ConnectWaits(Hold(b, t), t, r, newcomer, order, now, s);
    case DoPublish(t, client, p, ms, now) => PublishWaits(Hold(b, t), t, client, p, ms, now, s);
    case DoSubscribe(t, client, id, fs, now) => TouchWaits(b, client, now, s);
    case DoPuback(client, id, now) => AcksWait(b, 0, client, id, now, s);
    case DoPubrec(t, client, id, now) => AcksWait(b, t, client, id, now, s);
    case DoPubrel(t, client, id, ms, now) => PubrelWaits(Hold(b, t), t, client, id, ms, now, s);
    case DoPubcomp(client, id, now) => AcksWait(b, 0, client, id, now, s);
    case DoPingreq(t, client, now) => TouchWaits(b, client, now, s);
    case DoExpire(order, now) => ExpireKeepsSession(b, order, now, s);
    case DoRetransmit(e, due, ms, now) => RetransmitWaits(b, e, ms, now, s);
  }

  lemma TouchWaits<S>(b: Broker<S>, client: string, now: int, s: S)
    requires s in b.sessions && !b.sessions[s].connected
    ensures var c := Touch(b, client, now); s in c.sessions && Waits(b.sessions[s], c.sessions[s])
  {
  }

  lemma RetransmitWaits<S>(b: Broker<S>, e: Timed<Retry<S>>, ms: seq<Match<S>>, now: int, s: S)
    requires e.item.session in b.sessions && s in b.sessions && !b.sessions[s].connected
    ensures var c := Retransmit(b, e, ms, now); s in c.sessions && Waits(b.sessions[s], c.sessions[s])
  {
    var p := StoredPacket(b.sessions[e.item.session], e.item.packetId, e.item.packetType);
    RouteWaits(b.(clock := now), WithDup(p), ms, now, s);
  }

  lemma ExecutionStepWaits<S>(states: seq<Broker<S>>, steps: seq<Step<S>>, i: nat, s: S)
    requires Execution(states, steps) && i < |steps| && s in states[i].sessions && !states[i].sessions[s].connected
    ensures s in states[i + 1].sessions && Waits(states[i].sessions[s], states[i + 1].sessions[s])
  {
    ReachableStates(states, steps, i);
    StepWaits(states[i], steps[i], s);
  }

  /** A session object that is once not connected never is again, whatever its client resumes: in every
      later state it is not connected, so that routing only queues for it (`EachMatch`), no delivery has
      been recorded for it, and its queue has only grown. */
  lemma {:induction false} OfflineForever<S>(states: seq<Broker<S>>, steps: seq<Step<S>>, i: nat, j: nat, s: S)
    requires Execution(states, steps) && i <= j < |states| && s in states[i].sessions && !states[i].sessions[s].connected
    ensures s in states[j].sessions && Waits(states[i].sessions[s], states[j].sessions[s])
    decreases j - i
  {
    if i < j {
      OfflineForever(states, steps, i, j - 1, s);
      ExecutionStepWaits(states, steps, j - 1, s);
      WaitsOn(states[i].sessions[s], states[j - 1].sessions[s], states[j].sessions[s]);
    }
  }
}
