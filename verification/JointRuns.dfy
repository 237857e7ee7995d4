/** Runs of the broker together with its topic tree: every packet is routed to what the tree holds. */
module JointRuns {
  import opened Packets
  import opened Wrappers
  import opened InflightHistory
  import opened Sessions
  import opened BrokerModel
  import opened BrokerInvariants
  import opened KeepAlive
  import opened BrokerRuns
  import opened Copies
  import opened Routing
  import opened SessionFates
  import opened TopicFilter
  import opened TopicHistory
  import opened TreeSteps

  /** The states and steps of a run, the tree's history at each state, and what each step found in it. */
  datatype Joint<S> = Joint(states: seq<Broker<S>>, steps: seq<Step<S>>, trees: seq<seq<Op<Match<S>>>>,
                            found: seq<seq<Entry<Match<S>>>>)

  ghost predicate JointRun<S>(r: Joint<S>)
  {
    && Execution(r.states, r.steps) && |r.trees| == |r.states| && |r.found| == |r.steps| && r.trees[0] == []
    && forall i {:trigger r.steps[i]} | 0 <= i < |r.steps| ::
         TreeDid(r.states[i], r.steps[i], r.trees[i], r.trees[i + 1], r.found[i])
  }

  /** A run goes on with any step that is enabled, doing to the tree what such a step does. */
  lemma OneMoreJoint<S>(r: Joint<S>, step: Step<S>, after: seq<Op<Match<S>>>, entries: seq<Entry<Match<S>>>)
    returns (r': Joint<S>)
    requires JointRun(r) && Enabled(r.states[|r.steps|], step)
    requires TreeDid(r.states[|r.steps|], step, r.trees[|r.steps|], after, entries)
    ensures RegistryOk(r.states[|r.steps|])
    ensures r' == Joint(r.states + [Next(r.states[|r.steps|], step)], r.steps + [step], r.trees + [after], r.found + [entries])
    ensures JointRun(r') && r'.states[|r.steps|] == r.states[|r.steps|]
    ensures r'.states[|r.steps| + 1] == Next(r.states[|r.steps|], step) && r'.trees[|r.steps| + 1] == after
  {
    var states, steps := OneMoreStep(r.states, r.steps, step);
    r' := Joint(states, steps, r.trees + [after], r.found + [entries]);
    forall i {:trigger r'.steps[i]} | 0 <= i < |r'.steps|
      ensures TreeDid(r'.states[i], r'.steps[i], r'.trees[i], r'.trees[i + 1], r'.found[i])
    {
      if i < |r.steps| {
        assert r'.states[i] == r.states[i] && r'.steps[i] == r.steps[i] && r'.found[i] == r.found[i];
        assert r'.trees[i] == r.trees[i] && r'.trees[i + 1] == r.trees[i + 1];
      }
    }
  }

  /** The run has come to this state, with this history of the tree. */
  ghost predicate Ends<S>(r: Joint<S>, b: Broker<S>, ops: seq<Op<Match<S>>>)
  {
    JointRun(r) && r.states[|r.steps|] == b && r.trees[|r.steps|] == ops
  }

  /** The second run goes on from the first. */
  ghost predicate GoesOn<S>(r: Joint<S>, r': Joint<S>)
  {
    r.states <= r'.states && r.steps <= r'.steps && r.trees <= r'.trees && r.found <= r'.found
  }

  lemma GoesOnTwice<S>(r: Joint<S>, r2: Joint<S>, r3: Joint<S>)
    requires GoesOn(r, r2) && GoesOn(r2, r3)
    ensures GoesOn(r, r3)
  {
  }

  ghost function Start<S>(now: int): Joint<S>
  {
    Joint([Initial(now)], [], [[]], [])
  }

  /** One more step of a run that has come to `b`. */
  lemma StepOn<S>(r: Joint<S>, b: Broker<S>, before: seq<Op<Match<S>>>, step: Step<S>, after: seq<Op<Match<S>>>,
                  entries: seq<Entry<Match<S>>>) returns (r': Joint<S>)
    requires Ends(r, b, before) && Enabled(b, step) && TreeDid(b, step, before, after, entries)
    ensures RegistryOk(b) && Ends(r', Next(b, step), after) && GoesOn(r, r') && r'.steps == r.steps + [step]
  {
    r' := OneMoreJoint(r, step, after, entries);
  }

  lemma RunHasInv<S>(r: Joint<S>, b: Broker<S>, ops: seq<Op<Match<S>>>)
    requires Ends(r, b, ops)
    ensures Inv(b)
  {
    ReachableStates(r.states, r.steps, |r.steps|);
  }

  // ---------------------------------------------------------------- whose subscriptions the tree holds

  /** Every subscription of the history names a session object of the client that made it. */
  ghost predicate Named<S>(b: Broker<S>, ops: seq<Op<Match<S>>>)
  {
    forall i | 0 <= i < |ops| && ops[i].Subscribe? ::
      ops[i].sub.session in b.sessions && b.sessions[ops[i].sub.session].clientId == ops[i].client
  }

  /** Session objects stay and keep their client ids. */
  ghost predicate KeepsNames<S>(b: Broker<S>, c: Broker<S>)
  {
    forall s | s in b.sessions :: s in c.sessions && c.sessions[s].clientId == b.sessions[s].clientId
  }

  lemma StepKeepsNames<S>(b: Broker<S>, step: Step<S>)
    requires KeepAliveInv(b) && Enabled(b, step)
    ensures KeepsNames(b, Next(b, step))
  {
    match step
    case DoOpen =>
    case DoClose(t) =>
    case DoBadFrame(t, client) =>
    case DoConnect(t, r, newcomer, order, now) => ConnectKeepsNames(Hold(b, t), t, r, newcomer, order, now);
    case DoExpire(order, now) => ExpireKeepsNames(b, order, now);
    case _ => QuietStep(b, step);
  }

  lemma ExpireKeepsNames<S>(b: Broker<S>, order: seq<Timed<S>>, now: int)
    requires ExpiryOk(b) && DrainOrder(b, order, now) && b.clock <= now
    requires forall e | e in order :: e.item in b.sessions
    ensures KeepsNames(b, Expire(b, order, now))
  {
    ExpirePhases(b, order, now);
  }

  lemma ConnectKeepsNames<S>(b: Broker<S>, t: nat, r: ConnectRequest, newcomer: S, order: ResendOrder, now: int)
    requires RegistryOk(b) && (Registers(b, r) ==> newcomer !in b.sessions)
    ensures KeepsNames(b, HandleConnect(b, t, r, newcomer, order, now))
  {
    ConnectChanges(b, t, r, newcomer, order, now);
  }

  lemma {:induction false} SubscribedAreNamed<S>(b: Broker<S>, client: string, fs: seq<Filter>)
    requires RegistryOk(b)
    ensures Named(b, Subscribed(b.registry, client, fs))
    decreases |fs|
  {
    if fs != [] { SubscribedAreNamed(b, client, fs[..|fs| - 1]); }
  }

  /** What a step adds to the tree's history. */
  lemma TreeGrows<S>(b: Broker<S>, step: Step<S>, before: seq<Op<Match<S>>>, after: seq<Op<Match<S>>>,
                     entries: seq<Entry<Match<S>>>) returns (added: seq<Op<Match<S>>>)
    requires RegistryOk(b) && TreeDid(b, step, before, after, entries)
    ensures after == before + added && Named(b, added)
  {
    added := after[|before|..];
    if step.DoSubscribe? { SubscribedAreNamed(b, step.client, step.filters); }
  }

  lemma {:induction false} SubscriptionsAreNamed<S>(r: Joint<S>, i: nat)
    requires JointRun(r) && i < |r.states|
    ensures Named(r.states[i], r.trees[i])
    decreases i
  {
    if i > 0 {
      var j := i - 1;
      SubscriptionsAreNamed(r, j);
      JointStepKeepsNamed(r, j);
    }
  }

  lemma JointStepKeepsNamed<S>(r: Joint<S>, i: nat)
    requires JointRun(r) && i < |r.steps| && Named(r.states[i], r.trees[i])
    ensures Named(r.states[i + 1], r.trees[i + 1])
  {
    ReachableStates(r.states, r.steps, i);
    assert TreeDid(r.states[i], r.steps[i], r.trees[i], r.trees[i + 1], r.found[i]);
    StepKeepsNames(r.states[i], r.steps[i]);
    var added := TreeGrows(r.states[i], r.steps[i], r.trees[i], r.trees[i + 1], r.found[i]);
    NamedNext(r.states[i], r.states[i + 1], r.trees[i], added);
  }

  lemma NamedNext<S>(b: Broker<S>, c: Broker<S>, before: seq<Op<Match<S>>>, added: seq<Op<Match<S>>>)
    requires Named(b, before) && Named(b, added) && KeepsNames(b, c)
    ensures Named(c, before + added)
  {
    var ops := before + added;
    forall i | 0 <= i < |ops| && ops[i].Subscribe?
      ensures ops[i].sub.session in c.sessions && c.sessions[ops[i].sub.session].clientId == ops[i].client
    {
      if i < |before| { assert ops[i] == before[i]; } else { assert ops[i] == added[i - |before|]; }
    }
  }

  // ---------------------------------------------------------------- what a SUBSCRIBE adds to the tree

  /** These are the filters with a QoS up to 2, in order: `ks` lists where they stand. */
  ghost predicate ListsValid(fs: seq<Filter>, ks: seq<nat>)
  {
    && (forall m, n | 0 <= m < n < |ks| :: ks[m] < ks[n])
    && (forall n | 0 <= n < |ks| :: ks[n] < |fs| && fs[ks[n]].qos <= 2)
    && forall k: nat | k < |fs| && fs[k].qos <= 2 :: k in ks
  }

  /** The operations subscribe the session to those filters, each at its own QoS. */
  ghost predicate SubscribesTo<S>(ops: seq<Op<Match<S>>>, fs: seq<Filter>, client: string, s: S, ks: seq<nat>)
    requires ListsValid(fs, ks)
  {
    && |ops| == |ks|
    && forall n | 0 <= n < |ks| ::
         ops[n] == Op.Subscribe(TopicNames.SplitTopic(fs[ks[n]].topic), client, Match(s, fs[ks[n]].qos))
  }

  lemma OneMoreValid(fs: seq<Filter>, init: seq<nat>) returns (ks: seq<nat>)
    requires fs != [] && ListsValid(fs[..|fs| - 1], init)
    ensures ListsValid(fs, ks) && ks == if fs[|fs| - 1].qos <= 2 then init + [|fs| - 1] else init
  {
    var last, short := |fs| - 1, fs[..|fs| - 1];
    ks := if fs[last].qos <= 2 then init + [last] else init;
    forall n | 0 <= n < |ks| ensures ks[n] < |fs| && fs[ks[n]].qos <= 2 && (n < |init| ==> ks[n] < last) {
      if n < |init| { assert ks[n] == init[n] && short[init[n]] == fs[init[n]]; }
    }
    forall k: nat | k < |fs| && fs[k].qos <= 2 ensures k in ks {
      if k < last { assert short[k] == fs[k] && k in init; }
    }
  }

  lemma {:induction false} SubscribedIsValid<S>(registry: map<string, S>, client: string, fs: seq<Filter>)
    returns (ks: seq<nat>)
    requires client in registry
    ensures ListsValid(fs, ks) && SubscribesTo(Subscribed(registry, client, fs), fs, client, registry[client], ks)
    decreases |fs|
  {
    ks := [];
    if fs != [] {
      var init := SubscribedIsValid(registry, client, fs[..|fs| - 1]);
      ks := OneMoreValid(fs, init);
      OneMoreSubscribed(registry, client, fs, init, ks);
    }
  }

  lemma OneMoreSubscribed<S>(registry: map<string, S>, client: string, fs: seq<Filter>, init: seq<nat>, ks: seq<nat>)
    requires client in registry && fs != [] && ListsValid(fs[..|fs| - 1], init) && ListsValid(fs, ks)
    requires SubscribesTo(Subscribed(registry, client, fs[..|fs| - 1]), fs[..|fs| - 1], client, registry[client], init)
    requires ks == if fs[|fs| - 1].qos <= 2 then init + [|fs| - 1] else init
    ensures SubscribesTo(Subscribed(registry, client, fs), fs, client, registry[client], ks)
  {
    var ops, s := Subscribed(registry, client, fs), registry[client];
    forall n | 0 <= n < |ks|
      ensures ops[n] == Op.Subscribe(TopicNames.SplitTopic(fs[ks[n]].topic), client, Match(s, fs[ks[n]].qos))
    {
      if n < |init| { assert ks[n] == init[n] && fs[..|fs| - 1][init[n]] == fs[init[n]]; }
    }
  }

  /** Over every run of broker and tree: a SUBSCRIBE of a registered client subscribes its session to each of its
      filters with a QoS up to 2, in order and at that QoS, and does nothing else to the tree; of any other
      client it does nothing to it. */
  lemma SubscribeEnters<S>(r: Joint<S>, i: nat) returns (ks: seq<nat>)
    requires JointRun(r) && i < |r.steps| && r.steps[i].DoSubscribe?
    ensures var b, fs, client := r.states[i], r.steps[i].filters, r.steps[i].client;
            && r.trees[i] <= r.trees[i + 1]
            && var added := r.trees[i + 1][|r.trees[i]|..];
               if client in b.registry then ListsValid(fs, ks) && SubscribesTo(added, fs, client, b.registry[client], ks)
               else added == []
  {
    ks := [];
    var st := r.steps[i];
    assert TreeDid(r.states[i], r.steps[i], r.trees[i], r.trees[i + 1], r.found[i]);
    assert r.trees[i + 1] == r.trees[i] + Subscribed(r.states[i].registry, st.client, st.filters);
    assert r.trees[i + 1][|r.trees[i]|..] == Subscribed(r.states[i].registry, st.client, st.filters);
    if st.client in r.states[i].registry { ks := SubscribedIsValid(r.states[i].registry, st.client, st.filters); }
  }

  // ---------------------------------------------------------------- what is written for a list of matches

  ghost predicate DistinctSessions<S>(ms: seq<Match<S>>)
  {
    forall i, j | 0 <= i < j < |ms| :: ms[i].session != ms[j].session
  }

  /** The minimum of the published QoS and the subscriptions that are reached. */
  ghost function SentQos<S>(b: Broker<S>, published: byte, ms: seq<Match<S>>): byte
  {
    if ms == [] then published
    else
      var n := |ms| - 1;
      var qos := SentQos(b, published, ms[..n]);
      if Reaches(b, ms[n]) && ms[n].qos < qos then ms[n].qos else qos
  }

  /** What the match gets after the earlier ones have lowered the QoS to `qos`: nothing unless its session
      is registered, connected and can be written to. */
  ghost function WriteOne<S>(b: Broker<S>, p: Packet, qos: byte, m: Match<S>): seq<Output>
  {
    if !Reaches(b, m) || !Writable(b, m.session) then []
    else
      var d := b.sessions[m.session];
      var id: uint16 := if d.nextPacketId == 65535 then 1 else d.nextPacketId + 1;
      [SentPublish(d.transport.value, p.(header := p.header.(qos := qos)), if qos > 0 then id else 0)]
  }

  ghost function Writes<S>(b: Broker<S>, p: Packet, ms: seq<Match<S>>): seq<Output>
  {
    if ms == [] then []
    else
      var n := |ms| - 1;
      Writes(b, p, ms[..n]) + WriteOne(b, p, SentQos(b, p.header.qos, ms), ms[n])
  }

  lemma MatchSpares<S>(b: Broker<S>, p: Packet, qos: byte, m: Match<S>, now: int, s: S)
    requires s in b.sessions && m.session != s
    ensures var c := RouteOne(b, p, qos, m, now).b; s in c.sessions && c.sessions[s] == b.sessions[s]
  {
  }

  /** A session that none of the matches names is left alone. */
  lemma {:induction false} RouteSpares<S>(b: Broker<S>, p: Packet, ms: seq<Match<S>>, now: int, s: S)
    requires s in b.sessions && forall i | 0 <= i < |ms| :: ms[i].session != s
    ensures s in Route(b, p, ms, now).b.sessions && Route(b, p, ms, now).b.sessions[s] == b.sessions[s]
    decreases |ms|
  {
    if ms != [] {
      var n := |ms| - 1;
      RouteSpares(b, p, ms[..n], now, s);
      var r := Route(b, p, ms[..n], now);
      MatchSpares(r.b, p, r.qos, ms[n], now, s);
    }
  }

  /** The state in which a match's turn comes treats it as the state before the routing would. */
  lemma TurnIsAsBefore<S>(b: Broker<S>, p: Packet, ms: seq<Match<S>>, n: nat, now: int)
    requires n < |ms| && DistinctSessions(ms)
    ensures var c := Route(b, p, ms[..n], now).b;
            && (Reaches(c, ms[n]) <==> Reaches(b, ms[n]))
            && (Reaches(b, ms[n]) ==> c.sessions[ms[n].session] == b.sessions[ms[n].session])
            && (Reaches(b, ms[n]) ==> (Writable(c, ms[n].session) <==> Writable(b, ms[n].session)))
  {
    RouteIsQuiet(b, p, ms[..n], now);
    QuietKeepsReach(b, Route(b, p, ms[..n], now).b, ms[n]);
    RouteHolds(b, p, ms[..n], now);
    if Reaches(b, ms[n]) { RouteSpares(b, p, ms[..n], now, ms[n].session); }
  }

  /** Routing to matches of different sessions writes for each of them what the state before it says. */
  lemma {:induction false} RouteWrites<S>(b: Broker<S>, p: Packet, ms: seq<Match<S>>, now: int)
    requires DistinctSessions(ms)
    ensures Route(b, p, ms, now).b.sent == b.sent + Writes(b, p, ms)
    ensures Route(b, p, ms, now).qos == SentQos(b, p.header.qos, ms)
    decreases |ms|
  {
    if ms != [] {
      var n := |ms| - 1;
      RouteWrites(b, p, ms[..n], now);
      TurnIsAsBefore(b, p, ms, n, now);
      MatchWrites(b, Route(b, p, ms[..n], now), p, ms[n], now);
    }
  }

  lemma MatchWrites<S>(b: Broker<S>, r: Routed<S>, p: Packet, m: Match<S>, now: int)
    requires Reaches(r.b, m) <==> Reaches(b, m)
    requires Reaches(b, m) ==>
               r.b.sessions[m.session] == b.sessions[m.session] && (Writable(r.b, m.session) <==> Writable(b, m.session))
    ensures var q := if Reaches(b, m) then Min(r.qos, m.qos) else r.qos;
            && RouteOne(r.b, p, r.qos, m, now).qos == q
            && RouteOne(r.b, p, r.qos, m, now).b.sent == r.b.sent + WriteOne(b, p, q, m)
  {
  }

  /** What decides who can be written to, and with which packet id, is the same. */
  ghost predicate Alike<S>(b: Broker<S>, c: Broker<S>)
  {
    && c.registry == b.registry && c.transports == b.transports && c.held == b.held && c.sessions.Keys == b.sessions.Keys
    && forall s | s in b.sessions ::
         && c.sessions[s].clientId == b.sessions[s].clientId && c.sessions[s].connected == b.sessions[s].connected
         && c.sessions[s].transport == b.sessions[s].transport
         && c.sessions[s].nextPacketId == b.sessions[s].nextPacketId
  }

  lemma WriteOneAlike<S>(b: Broker<S>, c: Broker<S>, p: Packet, qos: byte, m: Match<S>)
    requires Alike(b, c)
    ensures (Reaches(c, m) <==> Reaches(b, m)) && WriteOne(c, p, qos, m) == WriteOne(b, p, qos, m)
  {
  }

  lemma {:induction false} WritesAlike<S>(b: Broker<S>, c: Broker<S>, p: Packet, ms: seq<Match<S>>)
    requires Alike(b, c)
    ensures Writes(c, p, ms) == Writes(b, p, ms) && SentQos(c, p.header.qos, ms) == SentQos(b, p.header.qos, ms)
    decreases |ms|
  {
    if ms != [] {
      var n := |ms| - 1;
      WritesAlike(b, c, p, ms[..n]);
      WriteOneAlike(b, c, p, SentQos(b, p.header.qos, ms), ms[n]);
    }
  }

  lemma RouteWritesAlike<S>(b: Broker<S>, c: Broker<S>, p: Packet, ms: seq<Match<S>>, now: int)
    requires Alike(b, c) && DistinctSessions(ms)
    ensures Route(c, p, ms, now).b.sent == c.sent + Writes(b, p, ms)
  {
    RouteWrites(c, p, ms, now);
    WritesAlike(b, c, p, ms);
  }

  // ---------------------------------------------------------------- who hears of a packet that is routed

  /** The packet that the step routes: a PUBLISH with QoS 0 or 1, what a PUBREL releases, what a pass finds. */
  ghost function RoutedPacket<S>(b: Broker<S>, step: Step<S>): Option<Packet>
  {
    match step
    case DoPublish(_, _, p, _, _) => if p.header.qos < 2 then Some(p) else None
    case DoPubrel(_, client, id, _, _) =>
      if Known(b, client) && id in b.sessions[b.registry[client]].inflight
      then Some(b.sessions[b.registry[client]].inflight[id]) else None
    case DoRetransmit(e, _, _, _) =>
      if e.item.session in b.sessions && e.item.packetType == PUBLISH
      then
        var p := StoredPacket(b.sessions[e.item.session], e.item.packetId, PUBLISH);
        Some(p.(header := p.header.(dup := true)))
      else None
    case _ => None
  }

  /** The state that such a step starts to route from: the transport of a packet being handled is held. */
  ghost function RoutesFrom<S>(b: Broker<S>, step: Step<S>): Broker<S>
  {
    match step
    case DoPublish(t, _, _, _, _) => Hold(b, t)
    case DoPubrel(t, _, _, _, _) => Hold(b, t)
    case _ => b
  }

  /** The acknowledgement that follows. */
  ghost function ReplyTo<S>(step: Step<S>): seq<Output>
  {
    match step
    case DoPublish(t, _, p, _, _) => if p.header.qos == 1 then [SentAck(t, PUBACK, IdOf(p))] else []
    case DoPubrel(t, _, id, _, _) => [SentAck(t, PUBCOMP, id)]
    case _ => []
  }

  /** Step `i` of the run routes `p`, whose topic has these levels and no wildcards. */
  ghost predicate RoutesAt<S>(r: Joint<S>, i: nat, p: Packet, words: Path)
  {
    && i < |r.steps| && |r.states| == |r.trees| == |r.steps| + 1 && |r.found| == |r.steps|
    && (r.steps[i].DoPublish? || r.steps[i].DoPubrel? || r.steps[i].DoRetransmit?)
    && RoutedPacket(r.states[i], r.steps[i]) == Some(p) && p.body.Publish?
    && words == TopicNames.SplitTopic(p.body.topic) && NoWild(words)
  }

  /** Over every run: the tree returns each client once whose latest operation that reached the topic
      was a subscribe, with the session and QoS of that subscribe, and nobody else. */
  lemma RoutedFinds<S>(r: Joint<S>, i: nat, p: Packet, words: Path)
    requires JointRun(r) && RoutesAt(r, i, p, words)
    ensures var entries, ops := r.found[i], r.trees[i + 1];
            && |r.steps[i].matches| == |entries| && ops == r.trees[i] + [Lookup(words)]
            && (forall k | 0 <= k < |entries| :: r.steps[i].matches[k] == entries[k].sub)
            && (forall e | e in entries :: e.at == words && exists j: nat :: LatestIsSubscribe(ops, j, words, e.client))
            && (forall x, j: nat | LatestIsSubscribe(ops, j, words, x) :: Entry(words, x, ops[j].sub) in entries)
            && (forall k, l | 0 <= k < l < |entries| :: entries[k].client != entries[l].client)
  {
    assert TreeDid(r.states[i], r.steps[i], r.trees[i], r.trees[i + 1], r.found[i]);
    RoutedIsMatched(r.states[i], r.steps[i], r.trees[i], r.trees[i + 1], r.found[i], p);
    LiteralMatchIsLatest(r.trees[i], words, r.found[i]);
  }

  lemma RoutedIsMatched<S>(b: Broker<S>, step: Step<S>, before: seq<Op<Match<S>>>, after: seq<Op<Match<S>>>,
                           entries: seq<Entry<Match<S>>>, p: Packet)
    requires TreeDid(b, step, before, after, entries) && RoutedPacket(b, step) == Some(p) && p.body.Publish?
    requires step.DoPublish? || step.DoPubrel? || step.DoRetransmit?
    ensures Matched(before, after, p.body.topic, entries, step.matches)
  {
  }

  lemma FoundSession<S>(r: Joint<S>, i: nat, p: Packet, words: Path, e: Entry<Match<S>>)
    requires JointRun(r) && RoutesAt(r, i, p, words) && e in r.found[i]
    ensures e.sub.session in r.states[i].sessions && r.states[i].sessions[e.sub.session].clientId == e.client
  {
    RoutedFinds(r, i, p, words);
    SubscriptionsAreNamed(r, i);
    var j: nat :| LatestIsSubscribe(r.trees[i + 1], j, words, e.client);
    EntryIsNamed(r.states[i], r.trees[i], r.trees[i + 1], r.found[i], words, j, e);
  }

  lemma EntryIsNamed<S>(b: Broker<S>, before: seq<Op<Match<S>>>, ops: seq<Op<Match<S>>>, entries: seq<Entry<Match<S>>>,
                        words: Path, j: nat, e: Entry<Match<S>>)
    requires Named(b, before) && ops == before + [Lookup(words)] && LatestIsSubscribe(ops, j, words, e.client)
    requires e in entries && Entry(words, e.client, ops[j].sub) in entries
    requires forall k, l | 0 <= k < l < |entries| :: entries[k].client != entries[l].client
    ensures e.sub.session in b.sessions && b.sessions[e.sub.session].clientId == e.client
  {
    OneOfEach(entries, e, Entry(words, e.client, ops[j].sub));
    assert ops[j] == before[j];
  }

  /** And these are different session objects, each of the client that it was found for. */
  lemma FoundSessions<S>(r: Joint<S>, i: nat, p: Packet, words: Path)
    requires JointRun(r) && RoutesAt(r, i, p, words)
    ensures DistinctSessions(r.steps[i].matches)
    ensures forall e | e in r.found[i] ::
              e.sub.session in r.states[i].sessions && r.states[i].sessions[e.sub.session].clientId == e.client
  {
    var entries := r.found[i];
    RoutedFinds(r, i, p, words);
    forall e | e in entries
      ensures e.sub.session in r.states[i].sessions && r.states[i].sessions[e.sub.session].clientId == e.client
    {
      FoundSession(r, i, p, words, e);
    }
    forall k, l | 0 <= k < l < |entries| ensures entries[k].sub.session != entries[l].sub.session {
      assert entries[k] in entries && entries[l] in entries;
    }
  }

  lemma OneOfEach<V>(entries: seq<Entry<V>>, e: Entry<V>, f: Entry<V>)
    requires forall k, l | 0 <= k < l < |entries| :: entries[k].client != entries[l].client
    requires e in entries && f in entries && e.client == f.client
    ensures e == f
  {
    var k :| 0 <= k < |entries| && entries[k] == e;
    var l :| 0 <= l < |entries| && entries[l] == f;
    assert k == l;
  }

  lemma PublishWrites<S>(b: Broker<S>, step: Step<S>)
    requires Inv(b) && Enabled(b, step) && step.DoPublish? && step.packet.header.qos < 2 && DistinctSessions(step.matches)
    ensures Next(b, step).sent == b.sent + Writes(Hold(b, step.t), step.packet, step.matches) + ReplyTo(step)
  {
    HandlePublishWrites(Hold(b, step.t), step.t, step.client, step.packet, step.matches, step.now);
  }

  lemma HandlePublishWrites<S>(b: Broker<S>, t: nat, client: string, p: Packet, ms: seq<Match<S>>, now: int)
    requires p.header.qos < 2 && DistinctSessions(ms)
    ensures HandlePublish(b, t, client, p, ms, now).sent
         == b.sent + Writes(b, p, ms) + if p.header.qos == 1 then [SentAck(t, PUBACK, IdOf(p))] else []
  {
    RouteWritesAlike(b, Touch(b, client, now), p, ms, now);
  }

  lemma PubrelWrites<S>(b: Broker<S>, step: Step<S>)
    requires Inv(b) && Enabled(b, step) && step.DoPubrel? && Known(b, step.client) && DistinctSessions(step.matches)
    requires step.packetId in b.sessions[b.registry[step.client]].inflight
    ensures Next(b, step).sent
         == b.sent + Writes(Hold(b, step.t), b.sessions[b.registry[step.client]].inflight[step.packetId], step.matches)
            + ReplyTo(step)
  {
    assert HistoryOk(b.sessions[b.registry[step.client]]);
    StoredPackets(b.sessions[b.registry[step.client]].history);
    var held, p := Hold(b, step.t), b.sessions[b.registry[step.client]].inflight[step.packetId];
    RouteWritesAlike(held, Releasing(held, step.client, step.packetId, step.now), p, step.matches, step.now);
  }

  lemma PassWrites<S>(b: Broker<S>, step: Step<S>)
    requires Inv(b) && Enabled(b, step) && step.DoRetransmit? && DistinctSessions(step.matches)
    ensures RoutedPacket(b, step).Some?
    ensures Next(b, step).sent == b.sent + Writes(b, RoutedPacket(b, step).value, step.matches)
  {
    RouteWritesAlike(b, b.(clock := step.now), RoutedPacket(b, step).value, step.matches, step.now);
  }

  lemma StepWrites<S>(b: Broker<S>, step: Step<S>, p: Packet)
    requires Inv(b) && Enabled(b, step) && RoutedPacket(b, step) == Some(p)
    requires step.DoPublish? || step.DoPubrel? || step.DoRetransmit?
    requires DistinctSessions(step.matches)
    ensures Next(b, step).sent == b.sent + Writes(RoutesFrom(b, step), p, step.matches) + ReplyTo(step)
  {
    if step.DoPublish? {
      PublishWrites(b, step);
    } else if step.DoPubrel? {
      PubrelWrites(b, step);
    } else {
      PassWrites(b, step);
    }
  }

  /** End to end, over every run: a PUBLISH with QoS 0 or 1, a PUBREL that releases a packet, and a
      retransmission pass each write, in the order in which the tree lists them, for each client whose
      latest operation that reached the topic was a subscribe, one packet to the session that the subscribe
      named, if that session is still registered, connected and can be written to; at the minimum of the
      packet's QoS and those of the clients reached so far; and then their acknowledgement, if they have
      one. They write nothing else. */
  lemma RoutedIsWritten<S>(r: Joint<S>, i: nat, p: Packet, words: Path)
    requires JointRun(r) && RoutesAt(r, i, p, words)
    ensures r.states[i + 1].sent
         == r.states[i].sent + Writes(RoutesFrom(r.states[i], r.steps[i]), p, r.steps[i].matches) + ReplyTo(r.steps[i])
  {
    FoundSessions(r, i, p, words);
    ReachableStates(r.states, r.steps, i);
    StepWrites(r.states[i], r.steps[i], p);
  }

  /** A client whose session was freed, by a CONNECT with a clean session for one, and which has not
      subscribed again, gets nothing of such a packet: what the tree holds of it still names the freed
      session, though the client may be registered and connected with another. */
  lemma FreedSubscriberIsDeaf<S>(r: Joint<S>, i: nat, p: Packet, words: Path, i0: nat, j: nat, x: string)
    requires JointRun(r) && RoutesAt(r, i, p, words) && i0 <= i && LatestIsSubscribe(r.trees[i + 1], j, words, x)
    requires var s := r.trees[i + 1][j].sub.session; s in r.states[i0].sessions && !Live(r.states[i0], s)
    ensures exists k :: 0 <= k < |r.found[i]| && r.found[i][k].client == x
    ensures forall k | 0 <= k < |r.found[i]| && r.found[i][k].client == x ::
              forall qos: byte :: WriteOne(RoutesFrom(r.states[i], r.steps[i]), p, qos, r.steps[i].matches[k]) == []
  {
    var ops, entries := r.trees[i + 1], r.found[i];
    RoutedFinds(r, i, p, words);
    FreedForever(r.states, r.steps, i0, i, ops[j].sub.session);
    var e := Entry(words, x, ops[j].sub);
    assert e in entries;
    forall k | 0 <= k < |entries| && entries[k].client == x
      ensures !Reaches(RoutesFrom(r.states[i], r.steps[i]), r.steps[i].matches[k])
    {
      assert entries[k] in entries;
      OneOfEach(entries, entries[k], e);
    }
  }
}
