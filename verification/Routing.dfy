/** What routing one PUBLISH over a list of matches does to each of them. */
module Routing {
  import opened Packets
  import opened InflightHistory
  import opened BrokerModel
  import opened BrokerInvariants

  // ---------------------------------------------------------------- who counts

  /** The match gets the packet sent, not queued. */
  ghost predicate Reaches<S>(b: Broker<S>, m: Match<S>)
  {
    Live(b, m.session) && b.sessions[m.session].connected
  }

  lemma QuietKeepsReach<S>(b: Broker<S>, c: Broker<S>, m: Match<S>)
    requires Quiet(b, c)
    ensures Live(c, m.session) <==> Live(b, m.session)
    ensures Reaches(c, m) <==> Reaches(b, m)
    ensures m.session in b.sessions ==> (Online(c, m.session) <==> Online(b, m.session))
  {
  }

  // ---------------------------------------------------------------- the QoS that is sent

  /** `q` is the minimum of the published QoS and the subscriptions among `ms` that are reached. */
  ghost predicate IsRunningMin<S>(b: Broker<S>, published: byte, ms: seq<Match<S>>, q: byte)
  {
    && q <= published
    && (forall m | m in ms && Reaches(b, m) :: q <= m.qos)
    && (q == published || exists m :: m in ms && Reaches(b, m) && q == m.qos)
  }

  /** The header's QoS after routing to some matches is the running minimum over them. */
  lemma {:induction false} RoutedQosIsRunningMin<S>(b: Broker<S>, p: Packet, ms: seq<Match<S>>, now: int)
    ensures IsRunningMin(b, p.header.qos, ms, Route(b, p, ms, now).qos)
    decreases |ms|
  {
    if ms != [] {
      var init, m := ms[..|ms| - 1], ms[|ms| - 1];
      RoutedQosIsRunningMin(b, p, init, now);
      RouteIsQuiet(b, p, init, now);
      QuietKeepsReach(b, Route(b, p, init, now).b, m);
      assert ms == init + [m];
      var q := Route(b, p, init, now).qos;
      if q != p.header.qos {
        var x :| x in init && Reaches(b, x) && q == x.qos;
        assert x in ms;
      }
      assert m in ms;
    }
  }

  /** `p` has been sent to session `s` with this QoS: it is written if the session's transport is in the
      session table or held, and above QoS 0 the session gets its next packet id, keeps a copy under the
      packet's own id, if that is free, and an entry to send it again 5 seconds later. */
  ghost predicate IsSent<S>(b: Broker<S>, s: S, p: Packet, qos: byte, now: int, c: Broker<S>)
    requires s in b.sessions
  {
    var d, q := b.sessions[s], p.(header := p.header.(qos := qos));
    var id: uint16 := if d.nextPacketId == 65535 then 1 else d.nextPacketId + 1;
    var own := if p.body.Publish? then p.body.packetId else 0;
    var reached := d.transport.Some? && (d.transport.value in b.transports || b.held == d.transport);
    var sent := b.sent + if reached then [SentPublish(d.transport.value, q, if qos > 0 then id else 0)] else [];
    if qos == 0 then c == b.(sent := sent)
    else
      c == b.(sent := sent, retransmit := b.retransmit + multiset{Timed(now + 5000, Retry(id, p.header.ptype, s))},
              sessions := b.sessions[s := d.(nextPacketId := id, history := d.history + [Delivered(q, id, now + 5000)],
                                             inflight := if own in d.inflight then d.inflight else d.inflight[own := q])])
  }

  /** `p` has been put into the queue of session `s` with this QoS, unless that is 0. */
  ghost predicate IsQueued<S>(b: Broker<S>, s: S, p: Packet, qos: byte, c: Broker<S>)
    requires s in b.sessions
  {
    var d, q := b.sessions[s], p.(header := p.header.(qos := qos));
    c == if qos == 0 then b else b.(sessions := b.sessions[s := d.(messageQueue := d.messageQueue + [q])])
  }

  /** Every match is treated in exactly one of four ways: passed over because its session is not registered
      any more, sent, queued, or dropped. `before` is the state in which its turn comes. */
  lemma EachMatch<S>(b: Broker<S>, p: Packet, ms: seq<Match<S>>, i: nat, now: int)
    requires i < |ms|
    ensures Route(b, p, ms[..0], now) == Routed(b, p.header.qos) && Route(b, p, ms[..|ms|], now) == Route(b, p, ms, now)
    ensures var before, after, s := Route(b, p, ms[..i], now), Route(b, p, ms[..i + 1], now), ms[i].session;
            if s !in b.sessions || b.sessions[s].clientId !in b.registry || b.registry[b.sessions[s].clientId] != s
            then after == before
            else
              && s in before.b.sessions
              && if b.sessions[s].connected then
                   && after.qos == (if ms[i].qos < before.qos then ms[i].qos else before.qos)
                   && after.qos <= p.header.qos && IsSent(before.b, s, p, after.qos, now, after.b)
                 else after.qos == before.qos && IsQueued(before.b, s, p, before.qos, after.b)
  {
    assert ms[..i + 1][..i] == ms[..i] && ms[..|ms|] == ms;
    RouteIsQuiet(b, p, ms[..i], now);
    QuietKeepsReach(b, Route(b, p, ms[..i], now).b, ms[i]);
    RoutedQosIsRunningMin(b, p, ms[..i], now);
    SendIsSent(Route(b, p, ms[..i], now).b, ms[i].session, p, Route(b, p, ms[..i + 1], now).qos, now);
  }

  lemma SendIsSent<S>(b: Broker<S>, s: S, p: Packet, qos: byte, now: int)
    ensures s in b.sessions ==> IsSent(b, s, p, qos, now, Send(b, s, WithQos(p, qos), now))
  {
    if s in b.sessions {
      assert b.sent + [] == b.sent;
    }
  }

  /** A subscriber gets the QoS the standard prescribes, the minimum of the published and its own
      (section 3.8.4 of MQTT 3.1.1), exactly when no subscriber reached before it has a lower one. */
  lemma PrescribedQosIff<S>(b: Broker<S>, p: Packet, ms: seq<Match<S>>, i: nat, now: int)
    requires i < |ms| && Reaches(b, ms[i])
    ensures Route(b, p, ms[..i + 1], now).qos == Min(p.header.qos, ms[i].qos)
       <==> forall m | m in ms[..i] && Reaches(b, m) :: m.qos >= Min(p.header.qos, ms[i].qos)
  {
    EachMatch(b, p, ms, i, now);
    RoutedQosIsRunningMin(b, p, ms[..i], now);
  }

  // ---------------------------------------------------------------- retransmission entries

  /** How many of the matches are sent at a QoS above 0. */
  ghost function PositiveSends<S>(b: Broker<S>, p: Packet, ms: seq<Match<S>>, now: int): nat
  {
    if ms == [] then 0
    else
      var n := |ms| - 1;
      PositiveSends(b, p, ms[..n], now) + if Reaches(b, ms[n]) && Route(b, p, ms, now).qos > 0 then 1 else 0
  }

  /** One match adds at most one entry. */
  lemma OneMatchEntries<S>(b: Broker<S>, p: Packet, ms: seq<Match<S>>, i: nat, now: int)
    requires i < |ms|
    ensures var before, after := Route(b, p, ms[..i], now).b.retransmit, Route(b, p, ms[..i + 1], now);
            if Reaches(b, ms[i]) && after.qos > 0
            then exists id :: after.b.retransmit
                              == before + multiset{Timed(now + 5000, Retry(id, p.header.ptype, ms[i].session))}
            else after.b.retransmit == before
  {
    EachMatch(b, p, ms, i, now);
  }

  /** Exactly one retransmission entry is pushed for each send above QoS 0, due 5 seconds later; and
      nothing is taken out of the heap. */
  lemma {:induction false} OneEntryPerPositiveSend<S>(b: Broker<S>, p: Packet, ms: seq<Match<S>>, now: int)
    ensures var r := Route(b, p, ms, now).b.retransmit;
            b.retransmit <= r && |r| == |b.retransmit| + PositiveSends(b, p, ms, now)
    ensures forall e | e in Route(b, p, ms, now).b.retransmit - b.retransmit ::
              e.key == now + 5000 && exists m :: m in ms && m.session == e.item.session && Reaches(b, m)
    decreases |ms|
  {
    if ms != [] {
      var n := |ms| - 1;
      assert ms == ms[..n] + [ms[n]] && ms[..n + 1] == ms;
      assert ms[n] in ms && forall x | x in ms[..n] :: x in ms;
      OneEntryPerPositiveSend(b, p, ms[..n], now);
      OneMatchEntries(b, p, ms, n, now);
    }
  }
}
