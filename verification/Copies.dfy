/** The copies that routing a packet leaves in the sessions it is delivered to, and what becomes of them.

    A delivery above QoS 0 is stored with the subscriber, under the publisher's packet id, and whatever
    sends a stored packet may send that copy too: to every subscriber of the topic, leaving copies again.
 */
module Copies {
  import opened Packets
  import opened InflightHistory
  import opened Sessions
  import opened BrokerModel
  import opened BrokerInvariants
  import opened BrokerRuns
  import opened ReachableSessions
  import opened Routing
  import opened SessionFates
  import opened Retransmissions

  // ---------------------------------------------------------------- what routing records

  /** `h2` is `h` and then deliveries of `p`, each with a QoS of its own. */
  ghost predicate AddsCopies(h: seq<Event>, p: Packet, h2: seq<Event>)
  {
    && h <= h2
    && forall k | |h| <= k < |h2| ::
         h2[k].Delivered? && h2[k].packet == p.(header := p.header.(qos := h2[k].packet.header.qos))
  }

  lemma MatchAdds<S>(b: Broker<S>, p: Packet, qos: byte, m: Match<S>, now: int, d: S)
    requires d in b.sessions
    ensures d in RouteOne(b, p, qos, m, now).b.sessions
    ensures AddsCopies(b.sessions[d].history, p, RouteOne(b, p, qos, m, now).b.sessions[d].history)
  {
    if Live(b, m.session) && m.session == d && b.sessions[d].connected {
      SendDelivers(b, WithQos(p, Min(qos, m.qos)), now, d);
    }
  }

  lemma AddsMore(h: seq<Event>, p: Packet, h2: seq<Event>, h3: seq<Event>)
    requires AddsCopies(h, p, h2) && AddsCopies(h2, p, h3)
    ensures AddsCopies(h, p, h3)
  {
    forall k | |h| <= k < |h3|
      ensures h3[k].Delivered? && h3[k].packet == p.(header := p.header.(qos := h3[k].packet.header.qos))
    {
      if k < |h2| { assert h3[k] == h2[k]; }
    }
  }

  /** All that routing a packet adds to any session's history are deliveries of that packet. */
  lemma {:induction false} RouteAdds<S>(b: Broker<S>, p: Packet, ms: seq<Match<S>>, now: int, d: S)
    requires d in b.sessions
    ensures d in Route(b, p, ms, now).b.sessions
    ensures AddsCopies(b.sessions[d].history, p, Route(b, p, ms, now).b.sessions[d].history)
    decreases |ms|
  {
    if ms != [] {
      var n := |ms| - 1;
      RouteAdds(b, p, ms[..n], now, d);
      var r := Route(b, p, ms[..n], now);
      MatchAdds(r.b, p, r.qos, ms[n], now, d);
      AddsMore(b.sessions[d].history, p, r.b.sessions[d].history, Route(b, p, ms, now).b.sessions[d].history);
    }
  }

  /** It adds any at all exactly if some match is sent above QoS 0. */
  lemma {:induction false} RouteAddsIff<S>(b: Broker<S>, p: Packet, ms: seq<Match<S>>, now: int)
    ensures PositiveSends(b, p, ms, now) > 0
       <==> exists d | d in b.sessions && d in Route(b, p, ms, now).b.sessions ::
              |Route(b, p, ms, now).b.sessions[d].history| > |b.sessions[d].history|
    decreases |ms|
  {
    RouteIsQuiet(b, p, ms, now);
    if ms != [] {
      var n := |ms| - 1;
      RouteAddsIff(b, p, ms[..n], now);
      LastAddsIff(b, p, ms, now);
    }
  }

  lemma LastAddsIff<S>(b: Broker<S>, p: Packet, ms: seq<Match<S>>, now: int)
    requires ms != []
    ensures var n := |ms| - 1;
            var before, after := Route(b, p, ms[..n], now).b, Route(b, p, ms, now);
            && before.sessions.Keys == b.sessions.Keys && after.b.sessions.Keys == b.sessions.Keys
            && (forall d | d in b.sessions :: |b.sessions[d].history| <= |before.sessions[d].history| <= |after.b.sessions[d].history|)
            && ((Reaches(b, ms[n]) && after.qos > 0)
                <==> exists d | d in b.sessions :: |after.b.sessions[d].history| > |before.sessions[d].history|)
  {
    var n := |ms| - 1;
    var r := Route(b, p, ms[..n], now);
    RouteIsQuiet(b, p, ms[..n], now);
    RouteIsQuiet(b, p, ms, now);
    QuietKeepsReach(b, r.b, ms[n]);
    forall d | d in b.sessions
      ensures |b.sessions[d].history| <= |r.b.sessions[d].history| <= |Route(b, p, ms, now).b.sessions[d].history|
    {
      RouteAdds(b, p, ms[..n], now, d);
      MatchAdds(r.b, p, r.qos, ms[n], now, d);
    }
    if Reaches(b, ms[n]) {
      SendDelivers(r.b, WithQos(p, Min(r.qos, ms[n].qos)), now, ms[n].session);
    }
  }

  // ---------------------------------------------------------------- what a step that sends a packet records

  /** Event `k` of the session's history is a delivery that has been recorded between the two states. */
  ghost predicate Records<S>(b: Broker<S>, c: Broker<S>, d: S, k: nat)
  {
    && d in b.sessions && d in c.sessions && |b.sessions[d].history| <= k < |c.sessions[d].history|
    && c.sessions[d].history[k].Delivered?
  }

  /** It is a delivery that step `i` has recorded. */
  ghost predicate RecordedBy<S>(states: seq<Broker<S>>, i: nat, d: S, k: nat)
  {
    i + 1 < |states| && Records(states[i], states[i + 1], d, k)
  }

  /** The same packet, but for its QoS and its DUP flag: above all the same topic, payload and packet id. */
  ghost predicate SameMessage(p: Packet, q: Packet)
  {
    q == p.(header := p.header.(qos := q.header.qos, dup := q.header.dup))
  }

  lemma PubrelRecords<S>(b: Broker<S>, t: nat, client: string, n: uint16, ms: seq<Match<S>>, now: int, d: S, k: nat)
    requires Known(b, client) && n in b.sessions[b.registry[client]].inflight
    requires Records(b, HandlePubrel(b, t, client, n, ms, now), d, k)
    ensures SameMessage(b.sessions[b.registry[client]].inflight[n],
                        HandlePubrel(b, t, client, n, ms, now).sessions[d].history[k].packet)
  {
    var c, s := Touch(b, client, now), b.registry[client];
    var taken := With(c, s, Released(c.sessions[s], n));
    RouteAdds(taken, c.sessions[s].inflight[n], ms, now, d);
  }

  /** A PUBREL that releases a packet records copies exactly if it sends the packet to some match above
      QoS 0. */
  lemma PubrelRecordsIff<S>(b: Broker<S>, t: nat, client: string, n: uint16, ms: seq<Match<S>>, now: int)
    requires Known(b, client) && n in b.sessions[b.registry[client]].inflight
    requires IsPublish(b.sessions[b.registry[client]].inflight[n])
    ensures (exists d, k: nat :: Records(b, HandlePubrel(b, t, client, n, ms, now), d, k))
       <==> PositiveSends(Releasing(b, client, n, now), b.sessions[b.registry[client]].inflight[n], ms, now) > 0
  {
    var taken, p := Releasing(b, client, n, now), b.sessions[b.registry[client]].inflight[n];
    var c, c2 := Route(taken, p, ms, now).b, HandlePubrel(b, t, client, n, ms, now);
    RouteAddsIff(taken, p, ms, now);
    forall d | d in b.sessions ensures d in c.sessions && AddsCopies(taken.sessions[d].history, p, c.sessions[d].history) {
      RouteAdds(taken, p, ms, now, d);
    }
    if d :| d in taken.sessions && d in c.sessions && |c.sessions[d].history| > |taken.sessions[d].history| {
      assert Records(b, c2, d, |taken.sessions[d].history|);
    }
    if d, k: nat :| Records(b, c2, d, k) {
      assert |c.sessions[d].history| > |taken.sessions[d].history|;
    }
  }

  /** The state in which a PUBREL routes what it has taken out. */
  ghost function Releasing<S>(b: Broker<S>, client: string, n: uint16, now: int): Broker<S>
    requires Known(b, client)
  {
    var c, s := Touch(b, client, now), b.registry[client];
    With(c, s, Released(c.sessions[s], n))
  }

  lemma PassRecords<S>(b: Broker<S>, e: Timed<Retry<S>>, ms: seq<Match<S>>, now: int, d: S, k: nat)
    requires e.item.session in b.sessions && Records(b, Retransmit(b, e, ms, now), d, k)
    ensures SameMessage(StoredPacket(b.sessions[e.item.session], e.item.packetId, e.item.packetType),
                        Retransmit(b, e, ms, now).sessions[d].history[k].packet)
  {
    var p := StoredPacket(b.sessions[e.item.session], e.item.packetId, e.item.packetType);
    RouteAdds(b.(clock := now), WithDup(p), ms, now, d);
  }

  lemma ConnectRecordsNone<S>(b: Broker<S>, step: Step<S>, d: S, k: nat)
    requires KeepAliveInv(b) && Enabled(b, step) && step.DoConnect?
    ensures !Records(b, Next(b, step), d, k)
  {
    ConnectChanges(Hold(b, step.t), step.t, step.request, step.newcomer, step.resend, step.now);
  }

  /** Every delivery that is recorded by a step which sends a stored packet is a copy of that packet, so
      it is stored, if it is, under that packet's own id. */
  lemma RecordedAreCopies<S>(states: seq<Broker<S>>, steps: seq<Step<S>>, i: nat, s: S, j: nat, d: S, k: nat)
    requires Execution(states, steps) && i < |steps| && SendsEvent(states[i], steps[i], s, j) && RecordedBy(states, i, d, k)
    ensures SameMessage(states[i].sessions[s].history[j].packet, states[i + 1].sessions[d].history[k].packet)
  {
    ReachableStates(states, steps, i);
    EventIsHeldPacket(states[i], steps[i], s, j);
    StepRecordsCopies(states[i], steps[i], s, IdOf(states[i].sessions[s].history[j].packet), d, k);
  }

  lemma StepRecordsCopies<S>(b: Broker<S>, step: Step<S>, s: S, n: uint16, d: S, k: nat)
    requires Inv(b) && Enabled(b, step) && SendsStored(b, step, s, n) && Records(b, Next(b, step), d, k)
    ensures SameMessage(b.sessions[s].inflight[n], Next(b, step).sessions[d].history[k].packet)
  {
    match step
    case DoPubrel(t, client, id, ms, now) => PubrelRecords(Hold(b, t), t, client, id, ms, now, d, k);
    case DoRetransmit(e, _, ms, now) => PassRecords(b, e, ms, now, d, k);
    case DoConnect(_, _, _, _, _) => ConnectRecordsNone(b, step, d, k);
  }

  // ---------------------------------------------------------------- when a copy is sent

  /** The step is about id `n` of session `d`: its PUBREL, a pass over an entry with that id, or a CONNECT
      that resumes the session over its own transport. */
  ghost predicate IsAbout<S>(b: Broker<S>, step: Step<S>, d: S, n: uint16)
  {
    match step
    case DoPubrel(_, client, id, _, _) => client in b.registry && b.registry[client] == d && id == n
    case DoRetransmit(e, _, _, _) => e.item.session == d && e.item.packetId == n
    case DoConnect(t, r, _, _, _) => ResumesOver(b, t, r) && b.registry[r.clientId] == d
    case _ => false
  }

  /** The step is about id `n` of the session, which event `k` has taken and nothing has removed. */
  ghost predicate MayBeSent<S>(b: Broker<S>, step: Step<S>, d: S, k: nat, n: uint16)
    requires d in b.sessions
  {
    var h := b.sessions[d].history;
    Accepted(h, k) && IsAbout(b, step, d, n) && !RemovedBetween(h, n, k, |h|)
  }

  /** Over every run, for every event: a step sends what the event stored if and only if it is about the
      packet's own id, the event was accepted and the id has not been removed since. */
  lemma SendsEventIff<S>(states: seq<Broker<S>>, steps: seq<Step<S>>, i: nat, d: S, k: nat)
    requires Execution(states, steps) && i < |steps| && d in states[i].sessions && k < |states[i].sessions[d].history|
    ensures SendsEvent(states[i], steps[i], d, k)
       <==> Accepted(states[i].sessions[d].history, k)
            && MayBeSent(states[i], steps[i], d, k, IdOf(states[i].sessions[d].history[k].packet))
  {
    ReachableStates(states, steps, i);
    var h := states[i].sessions[d].history;
    if h[k].GotPublish? || h[k].Delivered? {
      HolderIsAccepted(states[i].sessions[d], IdOf(h[k].packet), k);
    }
  }

  /** So of a copy, after the step that recorded it: a pass sends it if and only if the pass's entry names
      the subscriber's session and the publisher's packet id, that id was free there when the copy came,
      and it has not been removed since; the subscriber's own PUBREL of that id, and its CONNECT over its
      own transport, likewise. Nothing else does. */
  lemma CopyIsSentIff<S>(states: seq<Broker<S>>, steps: seq<Step<S>>, i: nat, s: S, j: nat, d: S, k: nat, i2: nat)
    requires Execution(states, steps) && i < i2 < |steps|
    requires SendsEvent(states[i], steps[i], s, j) && RecordedBy(states, i, d, k)
    ensures d in states[i2].sessions && k < |states[i2].sessions[d].history|
    ensures SendsEvent(states[i2], steps[i2], d, k)
       <==> MayBeSent(states[i2], steps[i2], d, k, IdOf(states[i].sessions[s].history[j].packet))
  {
    HistoriesOnlyGrow(states, steps, i + 1, i2, d);
    RecordedAreCopies(states, steps, i, s, j, d, k);
    assert states[i2].sessions[d].history[k] == states[i + 1].sessions[d].history[k];
    SendsEventIff(states, steps, i2, d, k);
  }

  // ---------------------------------------------------------------- every step that carries a packet

  /** Event `k` of session `d` is a copy, after `g` generations, of event `j` of session `s`. */
  ghost predicate CopyOf<S>(states: seq<Broker<S>>, steps: seq<Step<S>>, g: nat, s: S, j: nat, d: S, k: nat)
    decreases g
  {
    if g == 0 then d == s && k == j
    else
      exists i: nat, d', k': nat ::
        i < |steps| && i < |states| && d' in states[i].sessions && CopyOf(states, steps, g - 1, s, j, d', k')
        && SendsEvent(states[i], steps[i], d', k') && RecordedBy(states, i, d, k)
  }

  /** The step sends what event `j` of session `s` stored, or a copy of any generation. */
  ghost predicate Carries<S>(states: seq<Broker<S>>, steps: seq<Step<S>>, i: nat, s: S, j: nat)
  {
    && i < |steps| && i < |states|
    && exists g: nat, d, k: nat ::
         d in states[i].sessions && CopyOf(states, steps, g, s, j, d, k) && SendsEvent(states[i], steps[i], d, k)
  }

  /** No delivery that the step has recorded is ever sent from the session it was delivered to. */
  ghost predicate CopiesRest<S>(states: seq<Broker<S>>, steps: seq<Step<S>>, i: nat)
  {
    forall i2: nat, d, k: nat | i2 < |steps| && i2 < |states| && d in states[i2].sessions && RecordedBy(states, i, d, k) ::
      !SendsEvent(states[i2], steps[i2], d, k)
  }

  lemma SenderCarries<S>(states: seq<Broker<S>>, steps: seq<Step<S>>, i: nat, s: S, j: nat)
    requires i < |steps| && i < |states| && SendsEvent(states[i], steps[i], s, j)
    ensures Carries(states, steps, i, s, j)
  {
    assert CopyOf(states, steps, 0, s, j, s, j);
  }

  lemma CopySenderCarries<S>(states: seq<Broker<S>>, steps: seq<Step<S>>, i: nat, s: S, j: nat, d: S, k: nat, i2: nat)
    requires i < |steps| && i < |states| && SendsEvent(states[i], steps[i], s, j) && RecordedBy(states, i, d, k)
    requires i2 < |steps| && i2 < |states| && SendsEvent(states[i2], steps[i2], d, k)
    ensures Carries(states, steps, i2, s, j)
  {
    assert CopyOf(states, steps, 0, s, j, s, j);
    assert CopyOf(states, steps, 1, s, j, d, k);
  }

  /** If one step only sends the packet itself, and its copies rest, there are no copies of copies. */
  lemma {:induction false} OneGeneration<S>(states: seq<Broker<S>>, steps: seq<Step<S>>, g: nat, s: S, j: nat, d: S, k: nat,
                                            i: nat)
    requires CopiesRest(states, steps, i) && CopyOf(states, steps, g, s, j, d, k)
    requires forall x: nat | x < |steps| && x < |states| && SendsEvent(states[x], steps[x], s, j) :: x == i
    ensures g == 0 || (g == 1 && RecordedBy(states, i, d, k))
    decreases g
  {
    if g > 0 {
      var x: nat, d', k': nat :|
        x < |steps| && x < |states| && d' in states[x].sessions && CopyOf(states, steps, g - 1, s, j, d', k')
        && SendsEvent(states[x], steps[x], d', k') && RecordedBy(states, x, d, k);
      OneGeneration(states, steps, g - 1, s, j, d', k', i);
    }
  }

  /** Over every run: a step that sends a packet is the only one of any kind that sends the packet or a copy
      of it, of any generation, if and only if no other step sends the packet itself and none of the copies
      that the step has left with the subscribers is ever sent. */
  lemma CarriedOnceIff<S>(states: seq<Broker<S>>, steps: seq<Step<S>>, i: nat, s: S, j: nat)
    requires Execution(states, steps) && i < |steps| && SendsEvent(states[i], steps[i], s, j)
    ensures (forall x: nat | Carries(states, steps, x, s, j) :: x == i)
       <==> (forall x: nat | x < |steps| && SendsEvent(states[x], steps[x], s, j) :: x == i) && CopiesRest(states, steps, i)
  {
    if forall x: nat | Carries(states, steps, x, s, j) :: x == i {
      forall x: nat | x < |steps| && SendsEvent(states[x], steps[x], s, j) ensures x == i {
        SenderCarries(states, steps, x, s, j);
      }
      forall i2: nat, d, k: nat | i2 < |steps| && i2 < |states| && d in states[i2].sessions && RecordedBy(states, i, d, k)
        ensures !SendsEvent(states[i2], steps[i2], d, k)
      {
        if SendsEvent(states[i2], steps[i2], d, k) { CopySenderCarries(states, steps, i, s, j, d, k, i2); }
      }
    }
    if (forall x: nat | x < |steps| && SendsEvent(states[x], steps[x], s, j) :: x == i) && CopiesRest(states, steps, i) {
      forall x: nat | Carries(states, steps, x, s, j) ensures x == i {
        var g: nat, d, k: nat :|
          d in states[x].sessions && CopyOf(states, steps, g, s, j, d, k) && SendsEvent(states[x], steps[x], d, k);
        OneGeneration(states, steps, g, s, j, d, k, i);
      }
    }
  }

  // ---------------------------------------------------------------- exactly once, copies included

  /** Whoever carries a packet, some step has sent the packet itself. */
  lemma {:induction false} CopyHasSender<S>(states: seq<Broker<S>>, steps: seq<Step<S>>, g: nat, s: S, j: nat, d: S, k: nat)
    requires CopyOf(states, steps, g, s, j, d, k) && g > 0
    ensures exists x: nat :: x < |steps| && x < |states| && SendsEvent(states[x], steps[x], s, j)
    decreases g
  {
    var x: nat, d', k': nat :|
      x < |steps| && x < |states| && d' in states[x].sessions && CopyOf(states, steps, g - 1, s, j, d', k')
      && SendsEvent(states[x], steps[x], d', k') && RecordedBy(states, x, d, k);
    if g > 1 { CopyHasSender(states, steps, g - 1, s, j, d', k'); }
  }

  lemma CarriedHasSender<S>(states: seq<Broker<S>>, steps: seq<Step<S>>, i: nat, s: S, j: nat)
    requires Carries(states, steps, i, s, j)
    ensures exists x: nat :: x < |steps| && x < |states| && SendsEvent(states[x], steps[x], s, j)
  {
    var g: nat, d, k: nat :|
      d in states[i].sessions && CopyOf(states, steps, g, s, j, d, k) && SendsEvent(states[i], steps[i], d, k);
    if g > 0 { CopyHasSender(states, steps, g, s, j, d, k); }
  }

  ghost predicate OnlyCarrier<S>(states: seq<Broker<S>>, steps: seq<Step<S>>, i: nat, s: S, j: nat)
  {
    Carries(states, steps, i, s, j) && forall x: nat | Carries(states, steps, x, s, j) :: x == i
  }

  /** QoS 2 exactly once (section 4.3.3 of MQTT 3.1.1), counting every step of any kind that sends the packet
      or a copy of it: over every run with at most one CONNECT on each transport, of a session that has had
      no delivery, what event `j` stored is carried by exactly one step if and only if a PUBREL has released
      it and none of the copies that this PUBREL has left with the subscribers is ever sent. */
  lemma CarriedByOneStepIff<S>(states: seq<Broker<S>>, steps: seq<Step<S>>, s: S, j: nat)
    requires Execution(states, steps) && OneConnectEach(steps) && s in states[|steps|].sessions
    requires forall x | 0 <= x < |states[|steps|].sessions[s].history| :: !states[|steps|].sessions[s].history[x].Delivered?
    ensures (exists i: nat :: OnlyCarrier(states, steps, i, s, j))
       <==> (exists i: nat :: i < |steps| && steps[i].DoPubrel? && SendsEvent(states[i], steps[i], s, j)
                              && CopiesRest(states, steps, i))
  {
    SentByOneStep(states, steps, |steps|, s, j);
    if i: nat :| OnlyCarrier(states, steps, i, s, j) {
      CarriedHasSender(states, steps, i, s, j);
      var x: nat :| x < |steps| && x < |states| && SendsEvent(states[x], steps[x], s, j);
      SenderCarries(states, steps, x, s, j);
      CarriedOnceIff(states, steps, i, s, j);
      assert steps[i].DoPubrel? && CopiesRest(states, steps, i);
    }
    if i: nat :| i < |steps| && steps[i].DoPubrel? && SendsEvent(states[i], steps[i], s, j) && CopiesRest(states, steps, i) {
      SenderCarries(states, steps, i, s, j);
      forall x: nat | x < |steps| && SendsEvent(states[x], steps[x], s, j) ensures x == i {
        assert !(x < i < |steps|) && !(i < x < |steps|);
      }
      CarriedOnceIff(states, steps, i, s, j);
      assert OnlyCarrier(states, steps, i, s, j);
    }
  }

  /** The copies of a packet rest if and only if no later step is about the packet's id in a session where
      that id was free when the copy came, and has not been removed since. */
  lemma CopiesRestIff<S>(states: seq<Broker<S>>, steps: seq<Step<S>>, i: nat, s: S, j: nat)
    requires Execution(states, steps) && i < |steps| && SendsEvent(states[i], steps[i], s, j)
    ensures CopiesRest(states, steps, i)
       <==> forall i2: nat, d, k: nat | i < i2 < |steps| && d in states[i2].sessions && RecordedBy(states, i, d, k) ::
              !MayBeSent(states[i2], steps[i2], d, k, IdOf(states[i].sessions[s].history[j].packet))
  {
    var n := IdOf(states[i].sessions[s].history[j].packet);
    forall i2: nat, d, k: nat | i2 < |steps| && d in states[i2].sessions && RecordedBy(states, i, d, k)
      ensures SendsEvent(states[i2], steps[i2], d, k) <==> i < i2 && MayBeSent(states[i2], steps[i2], d, k, n)
    {
      if i < i2 {
        CopyIsSentIff(states, steps, i, s, j, d, k, i2);
      } else {
        HistoriesOnlyGrow(states, steps, i2, i, d);
      }
    }
  }

  /** How often a PUBREL sends the packet that it releases above QoS 0. */
  ghost function CopiesOf<S>(b: Broker<S>, step: Step<S>): nat
    requires step.DoPubrel? && Known(b, step.client) && step.packetId in b.sessions[b.registry[step.client]].inflight
  {
    PositiveSends(Releasing(Hold(b, step.t), step.client, step.packetId, step.now),
                  b.sessions[b.registry[step.client]].inflight[step.packetId], step.matches, step.now)
  }

  lemma ReleaseRecordsIff<S>(b: Broker<S>, step: Step<S>)
    requires Inv(b) && Enabled(b, step) && step.DoPubrel? && Known(b, step.client)
    requires step.packetId in b.sessions[b.registry[step.client]].inflight
    ensures (exists d, k: nat :: Records(b, Next(b, step), d, k)) <==> CopiesOf(b, step) > 0
  {
    assert HistoryOk(b.sessions[b.registry[step.client]]);
    StoredPackets(b.sessions[b.registry[step.client]].history);
    var held := Hold(b, step.t);
    var c := HandlePubrel(held, step.t, step.client, step.packetId, step.matches, step.now);
    PubrelRecordsIff(held, step.t, step.client, step.packetId, step.matches, step.now);
    forall d, k: nat ensures Records(held, c, d, k) <==> Records(b, Next(b, step), d, k) {
    }
  }

  /** A PUBREL leaves copies if and only if it sends the packet to somebody above QoS 0; if not, they rest. */
  lemma LeavesCopiesIff<S>(states: seq<Broker<S>>, steps: seq<Step<S>>, i: nat)
    requires Execution(states, steps) && i < |steps| && steps[i].DoPubrel? && Known(states[i], steps[i].client)
    requires steps[i].packetId in states[i].sessions[states[i].registry[steps[i].client]].inflight
    ensures (exists d, k: nat :: RecordedBy(states, i, d, k)) <==> CopiesOf(states[i], steps[i]) > 0
    ensures CopiesOf(states[i], steps[i]) == 0 ==> CopiesRest(states, steps, i)
  {
    ReachableStates(states, steps, i);
    ReleaseRecordsIff(states[i], steps[i]);
    forall d, k: nat ensures RecordedBy(states, i, d, k) <==> Records(states[i], Next(states[i], steps[i]), d, k) {
    }
  }
}
