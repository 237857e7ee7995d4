/** Keep-alive over whole runs, in times and fields: who is heard of when, what a pass over the expiry heap does
    to whom, and so who keeps its connection and who loses it (section 3.1.2.10 of MQTT 3.1.1). */
module KeepAliveRuns {
  import opened Packets
  import opened Wrappers
  import opened InflightHistory
  import opened Sessions
  import opened BrokerModel
  import opened BrokerInvariants
  import opened KeepAlive
  import opened BrokerRuns
  import opened Retransmissions
  import opened Effects

  // ---------------------------------------------------------------- who is heard of

  /** The session is registered. */
  ghost predicate Owned<S>(b: Broker<S>, s: S)
  {
    s in b.sessions && b.sessions[s].clientId in b.registry && b.registry[b.sessions[s].clientId] == s
  }

  /** The session's transport is in the session table. */
  ghost predicate Wired<S>(b: Broker<S>, s: S)
    requires s in b.sessions
  {
    b.sessions[s].transport.Some? && b.sessions[s].transport.value in b.transports
  }

  /** The step is a packet, other than a CONNECT, of the client that the session is registered for. */
  ghost predicate HeardFrom<S>(b: Broker<S>, step: Step<S>, s: S)
  {
    match step
    case DoPublish(_, client, _, _, _) => client in b.registry && b.registry[client] == s
    case DoSubscribe(_, client, _, _, _) => client in b.registry && b.registry[client] == s
    case DoPuback(client, _, _) => client in b.registry && b.registry[client] == s
    case DoPubrec(_, client, _, _) => client in b.registry && b.registry[client] == s
    case DoPubrel(_, client, _, _, _) => client in b.registry && b.registry[client] == s
    case DoPubcomp(client, _, _) => client in b.registry && b.registry[client] == s
    case DoPingreq(_, client, _) => client in b.registry && b.registry[client] == s
    case _ => false
  }

  /** The step is a CONNECT that resumes the session. */
  ghost predicate ResumedBy<S>(b: Broker<S>, step: Step<S>, s: S)
  {
    && step.DoConnect? && !step.request.cleanSession
    && step.request.clientId in b.registry && b.registry[step.request.clientId] == s
  }

  /** The time of the latest packet becomes that of this step if the session is heard of, and stays
      otherwise; the terms change by a resumption only; client id and transport never do. */
  ghost predicate TermsAfter<S>(b: Broker<S>, step: Step<S>, s: S, c: Broker<S>)
    requires s in b.sessions
  {
    && s in c.sessions
    && var d, d' := b.sessions[s], c.sessions[s];
       && d'.lastActivity == (if HeardFrom(b, step, s) then step.now else d.lastActivity)
       && d'.keepAlive == (if ResumedBy(b, step, s) then step.request.keepAlive else d.keepAlive)
       && d'.cleanSession == (if ResumedBy(b, step, s) then false else d.cleanSession)
       && d'.clientId == d.clientId && d'.transport == d.transport
  }

  ghost predicate SameTerms<S>(b: Broker<S>, s: S, c: Broker<S>)
    requires s in b.sessions
  {
    && s in c.sessions
    && var d, d' := b.sessions[s], c.sessions[s];
       && d'.lastActivity == d.lastActivity && d'.keepAlive == d.keepAlive && d'.cleanSession == d.cleanSession
       && d'.clientId == d.clientId && d'.transport == d.transport
  }

  lemma MatchKeepsTerms<S>(b: Broker<S>, p: Packet, qos: byte, m: Match<S>, now: int, s: S)
    requires s in b.sessions
    ensures SameTerms(b, s, RouteOne(b, p, qos, m, now).b)
  {
  }

  lemma TermsTwice<S>(a: Broker<S>, b: Broker<S>, c: Broker<S>, s: S)
    requires s in a.sessions && SameTerms(a, s, b) && SameTerms(b, s, c)
    ensures SameTerms(a, s, c)
  {
  }

  lemma {:induction false} RouteKeepsTerms<S>(b: Broker<S>, p: Packet, ms: seq<Match<S>>, now: int, s: S)
    requires s in b.sessions
    ensures SameTerms(b, s, Route(b, p, ms, now).b)
    decreases |ms|
  {
    if ms != [] {
      var r, m := Route(b, p, ms[..|ms| - 1], now), ms[|ms| - 1];
      RouteKeepsTerms(b, p, ms[..|ms| - 1], now, s);
      MatchKeepsTerms(r.b, p, r.qos, m, now, s);
      TermsTwice(b, r.b, RouteOne(r.b, p, r.qos, m, now).b, s);
    }
  }

  lemma PublishTerms<S>(b: Broker<S>, t: nat, client: string, p: Packet, ms: seq<Match<S>>, now: int, c: Broker<S>, s: S)
    requires s in b.sessions && p.body.Publish? && PublishEffect(b, t, client, p, ms, now, c)
    ensures TermsAfter(b, DoPublish(t, client, p, ms, now), s, c)
  {
    RouteKeepsTerms(b.(clock := now, held := Some(t), sessions := Heard(b, client, now)), p, ms, now, s);
  }

  lemma PubrelTerms<S>(b: Broker<S>, t: nat, client: string, id: uint16, ms: seq<Match<S>>, now: int, c: Broker<S>, s: S)
    requires s in b.sessions && Known(b, client) && PubrelEffect(b, t, b.registry[client], id, ms, now, c)
    ensures TermsAfter(b, DoPubrel(t, client, id, ms, now), s, c)
  {
    var x := b.registry[client];
    var d := b.sessions[x];
    if id in d.inflight {
      var e := d.(lastActivity := now, inflight := d.inflight - {id}, history := d.history + [GotPubrel(id)]);
      RouteKeepsTerms(b.(clock := now, held := Some(t), sessions := b.sessions[x := e.(routed := d.routed + [d.inflight[id]])]),
                      d.inflight[id], ms, now, s);
    }
  }

  lemma PassTerms<S>(b: Broker<S>, e: Timed<Retry<S>>, due: int, ms: seq<Match<S>>, now: int, c: Broker<S>, s: S)
    requires s in b.sessions && RetransmitEffect(b, e, due, ms, now, c)
    ensures TermsAfter(b, DoRetransmit(e, due, ms, now), s, c)
  {
    var p := b.sessions[e.item.session].inflight[e.item.packetId];
    RouteKeepsTerms(b.(clock := now), p.(header := p.header.(dup := true)), ms, now, s);
  }

  lemma ExpiryTerms<S>(b: Broker<S>, order: seq<Timed<S>>, now: int, s: S)
    requires s in b.sessions && ExpiryOk(b) && b.clock <= now && DrainOrder(b, order, now)
    requires forall e | e in order :: e.item in b.sessions
    ensures SameTerms(b, s, Expire(b, order, now))
  {
    ExpirePhases(b, order, now);
  }

  lemma ConnectTerms<S>(b: Broker<S>, step: Step<S>, c: Broker<S>, s: S)
    requires RegistryOk(b) && s in b.sessions && step.DoConnect? && Effect(b, step, c)
    ensures TermsAfter(b, step, s, c)
  {
  }

  lemma AckTerms<S>(b: Broker<S>, step: Step<S>, c: Broker<S>, s: S)
    requires RegistryOk(b) && s in b.sessions && Effect(b, step, c)
    requires step.DoPuback? || step.DoPubrec? || step.DoPubcomp?
    ensures TermsAfter(b, step, s, c)
  {
  }

  lemma SimpleTerms<S>(b: Broker<S>, step: Step<S>, c: Broker<S>, s: S)
    requires RegistryOk(b) && s in b.sessions && Effect(b, step, c)
    requires step.DoOpen? || step.DoClose? || step.DoBadFrame? || step.DoSubscribe? || step.DoPingreq?
    ensures TermsAfter(b, step, s, c)
  {
  }

  lemma PublishStepTerms<S>(b: Broker<S>, step: Step<S>, c: Broker<S>, s: S)
    requires RegistryOk(b) && s in b.sessions && step.DoPublish? && Effect(b, step, c)
    ensures TermsAfter(b, step, s, c)
  {
    if step.packet.header.qos < 2 { PublishTerms(b, step.t, step.client, step.packet, step.matches, step.now, c, s); }
  }

  lemma StepTerms<S>(b: Broker<S>, step: Step<S>, s: S)
    requires Inv(b) && Enabled(b, step) && s in b.sessions
    ensures TermsAfter(b, step, s, Next(b, step))
  {
    var c := Next(b, step);
    StepHasEffect(b, step);
    match step
    case DoPublish(_, _, _, _, _) => PublishStepTerms(b, step, c, s);
    case DoPubrel(t, client, id, ms, now) => if client in b.registry { PubrelTerms(b, t, client, id, ms, now, c, s); }
    case DoRetransmit(e, due, ms, now) => PassTerms(b, e, due, ms, now, c, s);
    case DoExpire(order, now) => ExpiryTerms(b, order, now, s);
    case DoConnect(_, _, _, _, _) => ConnectTerms(b, step, c, s);
    case DoPuback(_, _, _) => AckTerms(b, step, c, s);
    case DoPubrec(_, _, _, _) => AckTerms(b, step, c, s);
    case DoPubcomp(_, _, _) => AckTerms(b, step, c, s);
    case _ => SimpleTerms(b, step, c, s);
  }

  /** Over every run: a packet of a registered client, and nothing else, renews the time of its session, and of
      no other session. */
  lemma ActivityIsRenewed<S>(states: seq<Broker<S>>, steps: seq<Step<S>>, i: nat, s: S)
    requires Execution(states, steps) && i < |steps| && s in states[i].sessions
    ensures TermsAfter(states[i], steps[i], s, states[i + 1])
    ensures states[i].sessions[s].lastActivity <= states[i + 1].sessions[s].lastActivity <= states[i + 1].clock
  {
    ReachableStates(states, steps, i);
    ReachableStates(states, steps, i + 1);
    StepTerms(states[i], steps[i], s);
  }

  lemma {:induction false} ActivityOnlyGrows<S>(states: seq<Broker<S>>, steps: seq<Step<S>>, i: nat, j: nat, s: S)
    requires Execution(states, steps) && i <= j < |states| && s in states[i].sessions
    ensures s in states[j].sessions && states[i].sessions[s].lastActivity <= states[j].sessions[s].lastActivity
    decreases j - i
  {
    if i < j {
      ActivityOnlyGrows(states, steps, i, j - 1, s);
      ActivityIsRenewed(states, steps, j - 1, s);
    }
  }

  // ---------------------------------------------------------------- what a pass does

  /** The session has an entry in the expiry heap that is due. */
  ghost predicate Drained<S>(b: Broker<S>, s: S, now: int)
  {
    exists e :: e in b.expiry && e.item == s && e.key <= now
  }

  /** A pass finds the session connected and not heard of in time. */
  ghost predicate Late<S>(b: Broker<S>, s: S, now: int)
    requires s in b.sessions
  {
    Drained(b, s, now) && b.sessions[s].connected && b.sessions[s].lastActivity + 1500 * b.sessions[s].keepAlive <= now
  }

  lemma LateAre<S>(b: Broker<S>, order: seq<Timed<S>>, now: int)
    requires ExpiryOk(b) && DrainOrder(b, order, now) && forall e | e in order :: e.item in b.sessions
    ensures forall s :: s in Overdue(b, order, now) <==> s in b.sessions && Late(b, s, now)
  {
    DrainedOnce(b, order, now);
    OverdueAre(b, order, now);
    forall s ensures s in Overdue(b, order, now) <==> s in b.sessions && Late(b, s, now) {
      if s in b.sessions && Late(b, s, now) {
        var e :| e in b.expiry && e.item == s && e.key <= now;
        assert e in order;
      }
    }
  }

  lemma {:induction false} OverdueOnce<S>(b: Broker<S>, order: seq<Timed<S>>, now: int)
    requires forall e | e in order :: e.item in b.sessions
    requires forall i, j | 0 <= i < j < |order| :: order[i].item != order[j].item
    ensures AllDistinct(Overdue(b, order, now))
    decreases |order|
  {
    if order != [] {
      var n := |order| - 1;
      OverdueOnce(b, order[..n], now);
      OverdueAre(b, order[..n], now);
      assert forall i | 0 <= i < n :: order[i].item != order[n].item;
    }
  }

  /** The sessions of a list are registered, and each is there once. */
  ghost predicate Listed<S>(b: Broker<S>, ss: seq<S>)
  {
    AllDistinct(ss) && forall x | x in ss :: Owned(b, x)
  }

  lemma ListedInit<S>(b: Broker<S>, ss: seq<S>)
    requires Listed(b, ss) && ss != []
    ensures Listed(b, ss[..|ss| - 1]) && ss[|ss| - 1] !in ss[..|ss| - 1] && Owned(b, ss[|ss| - 1])
    ensures forall x | x in ss :: x in ss[..|ss| - 1] || x == ss[|ss| - 1]
  {
    assert ss == ss[..|ss| - 1] + [ss[|ss| - 1]];
  }

  /** A session is closed: its transport is gone; a clean session is not registered any more, any other stays
      registered, keeps all it has, and is not connected. */
  ghost predicate Closed<S>(b: Broker<S>, s: S, c: Broker<S>)
    requires s in b.sessions && b.sessions[s].transport.Some?
  {
    var d := b.sessions[s];
    && s in c.sessions && d.transport.value !in c.transports
    && if d.cleanSession then c.sessions[s] == d && d.clientId !in c.registry
       else c.sessions[s] == d.(connected := false) && d.clientId in c.registry && c.registry[d.clientId] == s
  }

  /** One that has its transport to itself is closed by the disconnection of a list it is in. */
  lemma {:induction false} ListedIsClosed<S>(b: Broker<S>, ss: seq<S>, s: S)
    requires Listed(b, ss) && s in ss && Wired(b, s)
    requires forall x | x in ss && x != s :: b.sessions[x].transport != b.sessions[s].transport
    ensures Closed(b, s, DisconnectAll(b, ss))
    decreases |ss|
  {
    var init, last := ss[..|ss| - 1], ss[|ss| - 1];
    ListedInit(b, ss);
    DisconnectAllFades(b, init);
    if s == last {
      DisconnectAllSpares(b, init, s);
      if b.sessions[s].transport.value !in DisconnectAll(b, init).transports {
        DisconnectAllCloses(b, init, b.sessions[s].transport.value);
      }
    } else {
      ListedIsClosed(b, init, s);
      DisconnectAllSpares(b, init, last);
      OtherStaysClosed(b, DisconnectAll(b, init), s, last);
    }
  }

  lemma OtherStaysClosed<S>(b: Broker<S>, c: Broker<S>, s: S, x: S)
    requires Owned(b, s) && Owned(b, x) && s != x && Wired(b, s) && Closed(b, s, c)
    requires x in c.sessions && c.sessions[x] == b.sessions[x]
    ensures Closed(b, s, Disconnect(c, x))
  {
  }

  /** One whose transport is gone already is left as it is. */
  lemma {:induction false} UnwiredIsLeft<S>(b: Broker<S>, ss: seq<S>, s: S)
    requires Listed(b, ss) && Owned(b, s) && !Wired(b, s)
    ensures Owned(DisconnectAll(b, ss), s) && DisconnectAll(b, ss).sessions[s] == b.sessions[s]
    ensures DisconnectAll(b, ss).transports <= b.transports
    decreases |ss|
  {
    if ss != [] {
      var init, last := ss[..|ss| - 1], ss[|ss| - 1];
      ListedInit(b, ss);
      UnwiredIsLeft(b, init, s);
      if last != s { DisconnectAllSpares(b, init, last); }
    }
  }

  /** What is recorded in a session of a list. */
  lemma {:induction false} ListedRemember<S>(b: Broker<S>, ss: seq<S>, s: S)
    requires s in b.sessions && forall x | x in ss :: x in b.sessions
    ensures var d := b.sessions[s];
            ScheduleAll(b, ss).sessions[s]
            == if s in ss && d.keepAlive > 0 then d.(expiryMs := d.lastActivity + 1500 * d.keepAlive) else d
    decreases |ss|
  {
    if ss != [] {
      var init, last := ss[..|ss| - 1], ss[|ss| - 1];
      assert ss == init + [last];
      ListedRemember(b, init, s);
    }
  }

  /** The entries that they get. */
  lemma {:induction false} ListedAreScheduled<S>(b: Broker<S>, ss: seq<S>)
    requires AllDistinct(ss) && forall s | s in ss :: s in b.sessions
    ensures forall e :: ScheduleAll(b, ss).expiry[e] == b.expiry[e] + if e.item in ss && Renews(b, e) then 1 else 0
    decreases |ss|
  {
    if ss != [] {
      var init, last := ss[..|ss| - 1], ss[|ss| - 1];
      assert ss == init + [last] && last !in init;
      ListedAreScheduled(b, init);
      ListedRemember(b, init, last);
      OneMoreIsScheduled(b, ScheduleAll(b, init), init, last);
    }
  }

  /** The entry is one that a session gets whose deadline has moved: at its true deadline. */
  ghost predicate Renews<S>(b: Broker<S>, e: Timed<S>)
  {
    && e.item in b.sessions && b.sessions[e.item].keepAlive > 0
    && e.key == b.sessions[e.item].lastActivity + 1500 * b.sessions[e.item].keepAlive
  }

  lemma OneMoreIsScheduled<S>(b: Broker<S>, c: Broker<S>, init: seq<S>, last: S)
    requires last in b.sessions && last !in init && last in c.sessions && c.sessions[last] == b.sessions[last]
    requires forall e :: c.expiry[e] == b.expiry[e] + if e.item in init && Renews(b, e) then 1 else 0
    ensures forall e :: ScheduleExpiry(c, last).expiry[e]
                        == b.expiry[e] + if e.item in init + [last] && Renews(b, e) then 1 else 0
  {
    var d := b.sessions[last];
    if d.keepAlive > 0 { AddedEntry(c.expiry, Timed(d.lastActivity + 1500 * d.keepAlive, last)); }
  }

  /** The state in which a pass has popped the due entries. */
  ghost function Popped<S>(b: Broker<S>, order: seq<Timed<S>>, now: int): Broker<S>
  {
    b.(clock := now, expiry := b.expiry - multiset(order))
  }

  /** What is known of the sessions that a pass disconnects, once it has popped their entries. */
  lemma LateAreListed<S>(b: Broker<S>, order: seq<Timed<S>>, now: int)
    requires Inv(b) && Enabled(b, DoExpire(order, now))
    ensures Listed(Popped(b, order, now), Overdue(b, order, now))
    ensures forall s :: s in Overdue(b, order, now) <==> s in b.sessions && Late(b, s, now)
  {
    LateAre(b, order, now);
    DrainedOnce(b, order, now);
    OverdueOnce(b, order, now);
    forall x | x in Overdue(b, order, now) ensures Owned(Popped(b, order, now), x) {
      var e :| e in b.expiry && e.item == x && e.key <= now;
      assert Live(b, e.item);
    }
  }

  /** What a pass does after the disconnections changes only recorded expiry times and the heap. */
  lemma AfterDisconnections<S>(b: Broker<S>, order: seq<Timed<S>>, now: int, s: S)
    requires s in b.sessions && forall e | e in order :: e.item in b.sessions
    ensures var b1, c := DisconnectAll(Popped(b, order, now), Overdue(b, order, now)), Expire(b, order, now);
            && c.registry == b1.registry && c.transports == b1.transports && s in b1.sessions && s in c.sessions
            && c.sessions[s] == Remembered(b1.sessions[s], s in Stale(b, order, now))
  {
    var b1 := DisconnectAll(Popped(b, order, now), Overdue(b, order, now));
    ScheduleAllMoves(b1, Stale(b, order, now));
    ListedRemember(b1, Stale(b, order, now), s);
  }

  ghost function Remembered(d: Session, renewed: bool): Session
  {
    if renewed && d.keepAlive > 0 then d.(expiryMs := d.lastActivity + 1500 * d.keepAlive) else d
  }

  lemma StaleAreInTime<S>(b: Broker<S>, order: seq<Timed<S>>, now: int, s: S)
    requires ExpiryOk(b) && DrainOrder(b, order, now) && forall e | e in order :: e.item in b.sessions
    ensures s in Stale(b, order, now)
       <==> s in b.sessions && Drained(b, s, now) && b.sessions[s].lastActivity + 1500 * b.sessions[s].keepAlive > now
  {
    DrainedOnce(b, order, now);
    StaleAre(b, order, now);
    if s in b.sessions && Drained(b, s, now) {
      var e :| e in b.expiry && e.item == s && e.key <= now;
      assert e in order;
    }
  }

  lemma PassCloses<S>(b: Broker<S>, order: seq<Timed<S>>, now: int, s: S)
    requires Inv(b) && Enabled(b, DoExpire(order, now)) && s in b.sessions && Late(b, s, now) && Wired(b, s)
    requires forall x | x in b.sessions && x != s && Late(b, x, now) :: b.sessions[x].transport != b.sessions[s].transport
    ensures Closed(b, s, Expire(b, order, now))
  {
    LateAreListed(b, order, now);
    ListedIsClosed(Popped(b, order, now), Overdue(b, order, now), s);
    AfterDisconnections(b, order, now, s);
    StaleAreInTime(b, order, now, s);
  }

  /** The session is where it was: registered, and with all its data but the recorded expiry time, which is the
      deadline if it had a due entry. */
  ghost predicate LeftAsIs<S>(b: Broker<S>, s: S, now: int, c: Broker<S>)
    requires s in b.sessions
  {
    var d := b.sessions[s];
    var deadline := d.lastActivity + 1500 * d.keepAlive;
    && Owned(c, s)
    && c.sessions[s] == if Drained(b, s, now) && deadline > now && d.keepAlive > 0 then d.(expiryMs := deadline) else d
  }

  lemma DisconnectionsLeave<S>(b: Broker<S>, order: seq<Timed<S>>, now: int, s: S)
    requires Inv(b) && Enabled(b, DoExpire(order, now)) && Owned(b, s) && (Late(b, s, now) ==> !Wired(b, s))
    ensures var b1 := DisconnectAll(Popped(b, order, now), Overdue(b, order, now));
            Owned(b1, s) && b1.sessions[s] == b.sessions[s]
  {
    LateAreListed(b, order, now);
    if Late(b, s, now) {
      UnwiredIsLeft(Popped(b, order, now), Overdue(b, order, now), s);
    } else {
      DisconnectAllSpares(Popped(b, order, now), Overdue(b, order, now), s);
    }
  }

  lemma LeftThenRemembered<S>(b: Broker<S>, order: seq<Timed<S>>, now: int, s: S)
    requires (forall e | e in order :: e.item in b.sessions) && s in b.sessions
    requires var b1 := DisconnectAll(Popped(b, order, now), Overdue(b, order, now));
             Owned(b1, s) && b1.sessions[s] == b.sessions[s]
    requires s in Stale(b, order, now)
             <==> Drained(b, s, now) && b.sessions[s].lastActivity + 1500 * b.sessions[s].keepAlive > now
    ensures LeftAsIs(b, s, now, Expire(b, order, now))
  {
    AfterDisconnections(b, order, now, s);
  }

  lemma PassLeaves<S>(b: Broker<S>, order: seq<Timed<S>>, now: int, s: S)
    requires Inv(b) && Enabled(b, DoExpire(order, now)) && Owned(b, s) && (Late(b, s, now) ==> !Wired(b, s))
    ensures LeftAsIs(b, s, now, Expire(b, order, now))
  {
    LateAreListed(b, order, now);
    DisconnectionsLeave(b, order, now, s);
    StaleAreInTime(b, order, now, s);
    LeftThenRemembered(b, order, now, s);
  }

  lemma PassCloseTransports<S>(b: Broker<S>, order: seq<Timed<S>>, now: int, t: nat)
    requires Inv(b) && Enabled(b, DoExpire(order, now))
    ensures t in Expire(b, order, now).transports
       <==> t in b.transports && forall x | x in b.sessions && Late(b, x, now) :: b.sessions[x].transport != Some(t)
  {
    var gone := Overdue(b, order, now);
    LateAreListed(b, order, now);
    ExpirePhases(b, order, now);
    DisconnectAllFades(Popped(b, order, now), gone);
    if t in b.transports && t !in Expire(b, order, now).transports {
      DisconnectAllCloses(Popped(b, order, now), gone, t);
    }
  }

  lemma PoppedEntries<S>(b: Broker<S>, order: seq<Timed<S>>, now: int, e: Timed<S>)
    requires ExpiryOk(b) && DrainOrder(b, order, now)
    ensures (b.expiry - multiset(order))[e] == if e.key <= now then 0 else b.expiry[e]
  {
    if e.key > now { assert e !in order; } else { assert e !in b.expiry - multiset(order); }
  }

  lemma RenewsAsBefore<S>(b: Broker<S>, order: seq<Timed<S>>, now: int, e: Timed<S>)
    requires ExpiryOk(b) && forall x | x in order :: x.item in b.sessions
    ensures Renews(DisconnectAll(Popped(b, order, now), Overdue(b, order, now)), e) <==> Renews(b, e)
  {
    DisconnectAllFades(Popped(b, order, now), Overdue(b, order, now));
  }

  lemma PassEntries<S>(b: Broker<S>, order: seq<Timed<S>>, now: int, e: Timed<S>)
    requires ExpiryOk(b) && DrainOrder(b, order, now) && forall x | x in order :: x.item in b.sessions
    ensures Expire(b, order, now).expiry[e]
         == if e.key <= now then 0 else b.expiry[e] + if Drained(b, e.item, now) && Renews(b, e) then 1 else 0
  {
    StaleHaveNoEntry(b, order, now);
    StaleAreInTime(b, order, now, e.item);
    RenewsAsBefore(b, order, now, e);
    PoppedEntries(b, order, now, e);
    RenewedEntries(b, order, now, e);
  }

  lemma RenewedEntries<S>(b: Broker<S>, order: seq<Timed<S>>, now: int, e: Timed<S>)
    requires (forall x | x in order :: x.item in b.sessions) && AllDistinct(Stale(b, order, now))
    ensures var b1 := DisconnectAll(Popped(b, order, now), Overdue(b, order, now));
            Expire(b, order, now).expiry[e]
            == (b.expiry - multiset(order))[e] + if e.item in Stale(b, order, now) && Renews(b1, e) then 1 else 0
  {
    DisconnectAllFades(Popped(b, order, now), Overdue(b, order, now));
    ListedAreScheduled(DisconnectAll(Popped(b, order, now), Overdue(b, order, now)), Stale(b, order, now));
  }

  // ---------------------------------------------------------------- passes in a run

  lemma PassStep<S>(b: Broker<S>, step: Step<S>)
    requires RegistryOk(b) && Enabled(b, step) && step.DoExpire?
    ensures Enabled(b, DoExpire(step.order, step.now)) && forall e | e in step.order :: e.item in b.sessions
    ensures Next(b, step) == Expire(b, step.order, step.now)
  {
    assert forall e | e in step.order :: Live(b, e.item);
  }

  lemma PassOfRun<S>(states: seq<Broker<S>>, steps: seq<Step<S>>, i: nat)
    requires Execution(states, steps) && i < |steps| && steps[i].DoExpire?
    ensures var b, order, now := states[i], steps[i].order, steps[i].now;
            && Inv(b) && Enabled(b, DoExpire(order, now)) && (forall e | e in order :: e.item in b.sessions)
            && states[i + 1] == Expire(b, order, now)
  {
    ReachableStates(states, steps, i);
    PassStep(states[i], steps[i]);
  }

  /** Over every run: a connected session that a pass drains and finds late loses its live transport, if it shares
      that with no other such session. If it is clean, its client id is free; if not, the client id still names
      it, with everything it has stored, and it is not connected. */
  lemma LateIsClosed<S>(states: seq<Broker<S>>, steps: seq<Step<S>>, i: nat, s: S)
    requires Execution(states, steps) && i < |steps| && steps[i].DoExpire?
    requires s in states[i].sessions && Late(states[i], s, steps[i].now) && Wired(states[i], s)
    requires forall x | x in states[i].sessions && x != s && Late(states[i], x, steps[i].now) ::
               states[i].sessions[x].transport != states[i].sessions[s].transport
    ensures Closed(states[i], s, states[i + 1])
  {
    PassOfRun(states, steps, i);
    PassCloses(states[i], steps[i].order, steps[i].now, s);
  }

  /** Every other registered session is left as it is, but for its expiry entry; so is one found late whose
      transport is gone already. */
  lemma OthersAreLeft<S>(states: seq<Broker<S>>, steps: seq<Step<S>>, i: nat, s: S)
    requires Execution(states, steps) && i < |steps| && steps[i].DoExpire?
    requires Owned(states[i], s) && (Late(states[i], s, steps[i].now) ==> !Wired(states[i], s))
    ensures LeftAsIs(states[i], s, steps[i].now, states[i + 1])
  {
    PassOfRun(states, steps, i);
    PassLeaves(states[i], steps[i].order, steps[i].now, s);
  }

  /** A pass closes the transports of the sessions it finds late and no others; it takes every due entry out of
      the heap, and puts one back, at the true deadline, for each session found in time; it writes nothing. */
  lemma PassesTakeAndGive<S>(states: seq<Broker<S>>, steps: seq<Step<S>>, i: nat)
    requires Execution(states, steps) && i < |steps| && steps[i].DoExpire?
    ensures var b, c, now := states[i], states[i + 1], steps[i].now;
            && (forall t: nat :: t in c.transports
                  <==> t in b.transports && forall x | x in b.sessions && Late(b, x, now) :: b.sessions[x].transport != Some(t))
            && (forall e :: c.expiry[e]
                  == if e.key <= now then 0 else b.expiry[e] + if Drained(b, e.item, now) && Renews(b, e) then 1 else 0)
            && c == b.(clock := now, registry := c.registry, sessions := c.sessions, transports := c.transports,
                       expiry := c.expiry)
  {
    PassOfRun(states, steps, i);
    var b, order, now := states[i], steps[i].order, steps[i].now;
    forall t: nat
      ensures t in states[i + 1].transports
         <==> t in b.transports && forall x | x in b.sessions && Late(b, x, now) :: b.sessions[x].transport != Some(t)
    {
      PassCloseTransports(b, order, now, t);
    }
    forall e ensures states[i + 1].expiry[e]
         == if e.key <= now then 0 else b.expiry[e] + if Drained(b, e.item, now) && Renews(b, e) then 1 else 0
    {
      PassEntries(b, order, now, e);
    }
    PassTouchesLittle(b, order, now);
  }

  lemma PassTouchesLittle<S>(b: Broker<S>, order: seq<Timed<S>>, now: int)
    requires forall e | e in order :: e.item in b.sessions
    ensures var c := Expire(b, order, now);
            c == b.(clock := now, registry := c.registry, sessions := c.sessions, transports := c.transports,
                    expiry := c.expiry)
  {
    var b1 := DisconnectAll(Popped(b, order, now), Overdue(b, order, now));
    DisconnectAllFades(Popped(b, order, now), Overdue(b, order, now));
    DisconnectAllSendsNothing(Popped(b, order, now), Overdue(b, order, now));
    ScheduleAllMoves(b1, Stale(b, order, now));
    ScheduleAllSendsNothing(b1, Stale(b, order, now));
  }

  // ---------------------------------------------------------------- who keeps its connection

  /** The session has its transport to itself. */
  ghost predicate Alone<S>(b: Broker<S>, s: S)
    requires s in b.sessions
  {
    forall x | x in b.sessions && x != s :: b.sessions[x].transport != b.sessions[s].transport
  }

  /** Over every run: whoever has been heard of at time u, and is registered and alone on a live transport, is so
      after any pass before u + 1500 times its keep-alive in seconds. */
  lemma HeardIsSpared<S>(states: seq<Broker<S>>, steps: seq<Step<S>>, i: nat, j: nat, s: S)
    requires Execution(states, steps) && i < j < |steps| && steps[j].DoExpire?
    requires s in states[i].sessions && HeardFrom(states[i], steps[i], s)
    requires Owned(states[j], s) && Wired(states[j], s) && Alone(states[j], s)
    requires steps[j].now < steps[i].now + 1500 * states[j].sessions[s].keepAlive
    ensures Owned(states[j + 1], s) && Wired(states[j + 1], s)
    ensures states[j + 1].sessions[s].connected == states[j].sessions[s].connected
  {
    ActivityIsRenewed(states, steps, i, s);
    ActivityOnlyGrows(states, steps, i + 1, j, s);
    OthersAreLeft(states, steps, j, s);
    PassesTakeAndGive(states, steps, j);
  }

  /** Over every run: of the registered, connected sessions with a nonzero keep-alive that are alone on a live
      transport, a pass at time `now` leaves exactly those connected to it that have been heard of within 1500
      times their keep-alive. */
  lemma PassSparesIff<S>(states: seq<Broker<S>>, steps: seq<Step<S>>, i: nat, s: S)
    requires Execution(states, steps) && i < |steps| && steps[i].DoExpire?
    requires Owned(states[i], s) && Wired(states[i], s) && Alone(states[i], s)
    requires states[i].sessions[s].connected && states[i].sessions[s].keepAlive > 0
    ensures (Owned(states[i + 1], s) && Wired(states[i + 1], s) && states[i + 1].sessions[s].connected)
       <==> states[i].sessions[s].lastActivity + 1500 * states[i].sessions[s].keepAlive > steps[i].now
  {
    ReachableStates(states, steps, i);
    assert Monitored(states[i], s);
    var d := states[i].sessions[s];
    if d.lastActivity + 1500 * d.keepAlive <= steps[i].now {
      var e :| e in states[i].expiry && e.item == s && e.key <= d.Deadline();
      assert Drained(states[i], s, steps[i].now);
      LateIsClosed(states, steps, i, s);
    } else {
      OthersAreLeft(states, steps, i, s);
      PassesTakeAndGive(states, steps, i);
    }
  }
}
