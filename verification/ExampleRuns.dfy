/** Runs of the broker and its tree, from the initial state, in which it does not do what the standard asks. */
module ExampleRuns {
  import opened Packets
  import opened Wrappers
  import opened InflightHistory
  import opened BrokerModel
  import opened BrokerInvariants
  import opened KeepAlive
  import opened BrokerRuns
  import opened Copies
  import opened Retransmissions
  import opened TopicFilter
  import opened TopicHistory
  import TopicStrings
  import opened TreeSteps
  import opened JointRuns

  type Ops = seq<Op<Match<nat>>>

  const X: Path := ["/", "x"]
  const Y: Path := ["/", "y"]

  lemma Topics()
    ensures TopicNames.SplitTopic("/x") == X && TopicNames.SplitTopic("/y") == Y
  {
    TopicStrings.SplitIs("/x");
    TopicStrings.SplitIs("/y");
    assert "/x"[1..] == "x" && "/y"[1..] == "y";
    TopicStrings.OneLevel("x");
    TopicStrings.OneLevel("y");
  }

  function PublishPacket(qos: byte, topic: string, id: uint16): Packet
  {
    Packet(Header(PUBLISH, false, qos, false), |topic| + 6, Publish(topic, id, []))
  }

  // ---------------------------------------------------------------- what the tree holds

  /** The history has no wildcards, and these are the subscribers of "/x" and "/y". */
  ghost predicate Holding(ops: Ops, x: map<string, Match<nat>>, y: map<string, Match<nat>>)
  {
    LiteralOnly(ops) && Flat(ops, X) == x && Flat(ops, Y) == y
  }

  /** The entries list these subscribers of the topic, each once. */
  ghost predicate Listed(entries: seq<Entry<Match<nat>>>, words: Path, subs: map<string, Match<nat>>)
  {
    && Distinct(entries)
    && (forall e | e in entries :: e.at == words && e.client in subs && e.sub == subs[e.client])
    && (forall c | c in subs :: Entry(words, c, subs[c]) in entries)
  }

  /** A match of "/x" or "/y" returns such a list of subscribers, and changes none. */
  lemma MatchedHolding(ops: Ops, topic: string, x: map<string, Match<nat>>, y: map<string, Match<nat>>,
                       entries: seq<Entry<Match<nat>>>)
    returns (after: Ops)
    requires Holding(ops, x, y) && topic in {"/x", "/y"}
    requires Listed(entries, TopicNames.SplitTopic(topic), if topic == "/x" then x else y)
    ensures Holding(after, x, y) && Matched(ops, after, topic, entries, MatchesOf(entries))
  {
    Topics();
    var words := TopicNames.SplitTopic(topic);
    FoundInFlat(ops, words, entries);
    LookupHolding(ops, words, x, y);
    after := ops + [Op.Lookup(words)];
  }

  lemma LookupHolding(ops: Ops, words: Path, x: map<string, Match<nat>>, y: map<string, Match<nat>>)
    requires Holding(ops, x, y) && NoWild(words)
    ensures Holding(ops + [Op.Lookup(words)], x, y)
  {
    FlatNext(ops, Op.Lookup(words), X);
    FlatNext(ops, Op.Lookup(words), Y);
  }

  lemma SubscribeHolding(ops: Ops, op: Op<Match<nat>>, x: map<string, Match<nat>>, y: map<string, Match<nat>>)
    requires Holding(ops, x, y) && op.Subscribe? && op.filter in {X, Y}
    ensures if op.filter == X then Holding(ops + [op], x[op.client := op.sub], y)
            else Holding(ops + [op], x, y[op.client := op.sub])
  {
    FlatNext(ops, op, X);
    FlatNext(ops, op, Y);
    assert X[1] != Y[1] && NoWild(op.filter);
  }

  lemma SubscribedHolding(ops: Ops, registry: map<string, nat>, client: string, f: Filter,
                          x: map<string, Match<nat>>, y: map<string, Match<nat>>)
    returns (after: Ops)
    requires Holding(ops, x, y) && client in registry && f.topic in {"/x", "/y"} && f.qos < 3
    ensures after == ops + Subscribed(registry, client, [f])
    ensures var m := Match(registry[client], f.qos);
            if f.topic == "/x" then Holding(after, x[client := m], y) else Holding(after, x, y[client := m])
  {
    Topics();
    var op := Op.Subscribe(TopicNames.SplitTopic(f.topic), client, Match(registry[client], f.qos));
    assert [f][..0] == [] && Subscribed(registry, client, [f]) == [op];
    SubscribeHolding(ops, op, x, y);
    after := ops + [op];
  }

  // ---------------------------------------------------------------- clients come and subscribe

  /** Session `n` is connected over transport `n`; nothing has been delivered to it or heard from it. */
  ghost predicate Fresh(b: Broker<nat>, n: nat, client: string)
  {
    && n in b.sessions && b.sessions[n] == FirstData(ConnectRequest(4, false, 0, client), n, 0)
    && client in b.registry && b.registry[client] == n && n in b.transports
  }

  ghost predicate OneFresh(b: Broker<nat>)
  {
    && Fresh(b, 0, "a") && b.registry.Keys == {"a"} && b.sessions.Keys == {0}
    && b.retransmit == multiset{} && b.clock == 0 && b.nextTransport == 1
  }

  ghost predicate TwoFresh(b: Broker<nat>)
  {
    && Fresh(b, 0, "a") && Fresh(b, 1, "b") && b.registry.Keys == {"a", "b"} && b.sessions.Keys == {0, 1} && b.clock == 0
    && b.retransmit == multiset{}
  }

  lemma ConnectAfresh(b: Broker<nat>, n: nat, r: ConnectRequest)
    requires RegistryOk(b) && n in b.transports && n !in b.sessions && r.clientId !in b.registry && b.clock == 0
    requires r == ConnectRequest(4, false, 0, r.clientId) && n < b.nextTransport
    ensures Enabled(b, DoConnect(n, r, n, NO_RESEND, 0))
    ensures var c := Next(b, DoConnect(n, r, n, NO_RESEND, 0));
            && Fresh(c, n, r.clientId) && c.registry == b.registry[r.clientId := n]
            && c.sessions == b.sessions[n := FirstData(r, n, 0)]
            && c.retransmit == b.retransmit && c.clock == 0 && c.nextTransport == b.nextTransport
            && c.transports == b.transports
  {
  }

  lemma FirstTransport() returns (r: Joint<nat>)
    ensures JointRun(r) && |r.steps| == 1 && r.states[1] == Open(Initial(0)) && r.trees[1] == []
  {
    r := Joint([Initial(0)], [], [[]], []);
    r := OneMoreJoint(r, DoOpen, [], []);
  }

  lemma OneClient() returns (r: Joint<nat>)
    ensures JointRun(r) && |r.steps| == 2 && OneFresh(r.states[2]) && Holding(r.trees[2], map[], map[])
  {
    r := FirstTransport();
    ConnectAfresh(r.states[1], 0, ConnectRequest(4, false, 0, "a"));
    r := OneMoreJoint(r, DoConnect(0, ConnectRequest(4, false, 0, "a"), 0, NO_RESEND, 0), [], []);
  }

  lemma TwoClients() returns (r: Joint<nat>)
    ensures JointRun(r) && |r.steps| == 4 && TwoFresh(r.states[4]) && Holding(r.trees[4], map[], map[])
  {
    r := OneClient();
    var ops := r.trees[2];
    r := OneMoreJoint(r, DoOpen, ops, []);
    ConnectAfresh(r.states[3], 1, ConnectRequest(4, false, 0, "b"));
    r := OneMoreJoint(r, DoConnect(1, ConnectRequest(4, false, 0, "b"), 1, NO_RESEND, 0), ops, []);
  }

  /** A SUBSCRIBE with one filter, at time 0. */
  lemma SubscribeOne(r: Joint<nat>, t: nat, client: string, f: Filter, x: map<string, Match<nat>>, y: map<string, Match<nat>>)
    returns (r': Joint<nat>)
    requires JointRun(r) && Holding(r.trees[|r.steps|], x, y)
    requires f.topic in {"/x", "/y"} && f.qos < 3
    requires var b := r.states[|r.steps|];
             b.clock == 0 && client in b.registry && b.registry[client] in b.sessions
             && b.sessions[b.registry[client]].lastActivity == 0
    ensures JointRun(r') && |r'.steps| == |r.steps| + 1 && r'.steps[..|r.steps|] == r.steps
    ensures r'.states[|r.steps| + 1] == Emit(r.states[|r.steps|], SentSuback(t, 1, SubackCodes([f])))
    ensures var m := Match(r.states[|r.steps|].registry[client], f.qos);
            if f.topic == "/x" then Holding(r'.trees[|r'.steps|], x[client := m], y)
            else Holding(r'.trees[|r'.steps|], x, y[client := m])
  {
    var b := r.states[|r.steps|];
    TouchNow(b, client);
    var after := SubscribedHolding(r.trees[|r.steps|], b.registry, client, f, x, y);
    r' := OneMoreJoint(r, DoSubscribe(t, client, 1, [f], 0), after, []);
  }

  lemma TouchNow(b: Broker<nat>, client: string)
    requires b.clock == 0 && client in b.registry && b.registry[client] in b.sessions
    requires b.sessions[b.registry[client]].lastActivity == 0
    ensures Touch(b, client, 0) == b
  {
    assert b.sessions[b.registry[client]].(lastActivity := 0) == b.sessions[b.registry[client]];
    assert b.sessions[b.registry[client] := b.sessions[b.registry[client]]] == b.sessions;
  }

  // ---------------------------------------------------------------- a lower QoS than prescribed

  lemma RouteToTwo(b: Broker<nat>, p: Packet)
    requires Fresh(b, 0, "a") && Fresh(b, 1, "b") && p.header.qos == 1
    ensures Route(b, p, [Match(0, 0), Match(1, 1)], 0).b.sent
         == b.sent + [SentPublish(0, WithQos(p, 0), 0), SentPublish(1, WithQos(p, 0), 0)]
  {
    var ms := [Match(0, 0), Match(1, 1)];
    assert ms[..1] == [Match(0, 0)] && ms[..1][..0] == [];
    var r := Route(b, p, ms[..1], 0);
    assert Route(b, p, ms[..0], 0) == Routed(b, 1);
    assert ms[..1][|ms[..1]| - 1] == Match(0, 0);
    assert r == RouteOne(b, p, 1, Match(0, 0), 0);
  }

  lemma PublishToTwo(b: Broker<nat>, p: Packet)
    requires TwoFresh(b) && p.header.qos == 1
    ensures SentPublish(1, WithQos(p, 0), 0) in Release(HandlePublish(Hold(b, 0), 0, "a", p, [Match(0, 0), Match(1, 1)], 0)).sent
  {
    TouchNow(Hold(b, 0), "a");
    RouteToTwo(Hold(b, 0), p);
    var sent := HandlePublish(Hold(b, 0), 0, "a", p, [Match(0, 0), Match(1, 1)], 0).sent;
    assert sent[|b.sent| + 1] == SentPublish(1, WithQos(p, 0), 0);
  }

  /** Both clients have subscribed to "/x", "a" with QoS 0 and "b" with QoS 1. */
  lemma TwoSubscribers() returns (r: Joint<nat>)
    ensures JointRun(r) && |r.steps| == 6 && TwoFresh(r.states[6])
    ensures Holding(r.trees[6], map["a" := Match(0, 0), "b" := Match(1, 1)], map[])
  {
    r := TwoClients();
    r := SubscribeOne(r, 0, "a", Filter("/x", 0), map[], map[]);
    r := SubscribeOne(r, 1, "b", Filter("/x", 1), map["a" := Match(0, 0)], map[]);
  }

  const BOTH: seq<Entry<Match<nat>>> := [Entry(X, "a", Match(0, 0)), Entry(X, "b", Match(1, 1))]

  lemma MatchBoth(ops: Ops) returns (after: Ops)
    requires Holding(ops, map["a" := Match(0, 0), "b" := Match(1, 1)], map[])
    ensures Matched(ops, after, "/x", BOTH, [Match(0, 0), Match(1, 1)])
  {
    Topics();
    after := MatchedHolding(ops, "/x", map["a" := Match(0, 0), "b" := Match(1, 1)], map[], BOTH);
    assert MatchesOf(BOTH) == [Match(0, 0), Match(1, 1)];
  }

  /** A subscriber with QoS 1 gets a QoS 1 PUBLISH at QoS 0, because the tree lists a subscriber with
      QoS 0 before it. */
  lemma EarlierSubscriberLowersQos() returns (r: Joint<nat>)
    ensures JointRun(r) && |r.steps| == 7
    ensures var p := PublishPacket(1, "/x", 7);
            && r.found[6] == BOTH && r.steps[6] == DoPublish(0, "a", p, [Match(0, 0), Match(1, 1)], 0)
            && SentPublish(1, WithQos(p, 0), 0) in r.states[7].sent
  {
    var p := PublishPacket(1, "/x", 7);
    r := TwoSubscribers();
    PublishToTwo(r.states[6], p);
    var after := MatchBoth(r.trees[6]);
    r := OneMoreJoint(r, DoPublish(0, "a", p, [Match(0, 0), Match(1, 1)], 0), after, BOTH);
  }

  // ---------------------------------------------------------------- a delivery, and a packet of the client's own

  const ENTRY: Timed<Retry<nat>> := Timed(5000, Retry(2, PUBLISH, 0))
  const ON_X := map["a" := Match(0, 1)]
  const ON_Y := map["a" := Match(0, 0)]

  /** Client "a" is still there, with these packets and this history, and its delivery is due at 5000. */
  ghost predicate Holds(b: Broker<nat>, inflight: map<uint16, Packet>, h: seq<Event>)
  {
    && b.registry == map["a" := 0] && b.sessions.Keys == {0} && b.sessions[0].clientId == "a"
    && b.sessions[0].connected && b.sessions[0].transport == Some(0) && 0 in b.transports
    && b.sessions[0].inflight == inflight && b.sessions[0].history == h && b.sessions[0].routed == []
    && b.retransmit == multiset{ENTRY} && b.clock == 0 && b.nextTransport == 1
  }

  lemma DeliverOne(b: Broker<nat>, p: Packet)
    requires OneFresh(b) && IsPublish(p) && p.header.qos == 1
    ensures Holds(Release(HandlePublish(Hold(b, 0), 0, "a", p, [Match(0, 1)], 0)), map[IdOf(p) := p], [Delivered(p, 2, 5000)])
  {
    var c, ms := Hold(b, 0), [Match(0, 1)];
    TouchNow(c, "a");
    assert ms[..|ms| - 1] == [];
    assert Route(c, p, ms[..|ms| - 1], 0) == Routed(c, 1);
    assert WithQos(p, 1) == p;
    assert Route(c, p, ms, 0).b == Send(c, 0, p, 0);
  }

  lemma PublishOwn(b: Broker<nat>, p: Packet, own: Packet, h: seq<Event>)
    requires Holds(b, map[IdOf(p) := p], h) && own.header.qos == 2
    ensures Holds(Release(HandlePublish(Hold(b, 0), 0, "a", own, [], 0)), InsertIfAbsent(map[IdOf(p) := p], IdOf(own), own),
                  h + [GotPublish(own)])
  {
  }

  /** "a" has subscribed to "/x" with QoS 1 and to "/y" with QoS 0. */
  lemma OneSubscriber() returns (r: Joint<nat>)
    ensures JointRun(r) && |r.steps| == 4 && OneFresh(r.states[4]) && Holding(r.trees[4], ON_X, ON_Y)
  {
    r := OneClient();
    r := SubscribeOne(r, 0, "a", Filter("/x", 1), map[], map[]);
    r := SubscribeOne(r, 0, "a", Filter("/y", 0), ON_X, map[]);
  }

  lemma MatchX(ops: Ops) returns (after: Ops)
    requires Holding(ops, ON_X, ON_Y)
    ensures Holding(after, ON_X, ON_Y) && Matched(ops, after, "/x", [Entry(X, "a", Match(0, 1))], [Match(0, 1)])
  {
    Topics();
    after := MatchedHolding(ops, "/x", ON_X, ON_Y, [Entry(X, "a", Match(0, 1))]);
    assert MatchesOf([Entry(X, "a", Match(0, 1))]) == [Match(0, 1)];
  }

  lemma MatchY(ops: Ops) returns (after: Ops)
    requires Holding(ops, ON_X, ON_Y)
    ensures Holding(after, ON_X, ON_Y) && Matched(ops, after, "/y", [Entry(Y, "a", Match(0, 0))], [Match(0, 0)])
  {
    Topics();
    after := MatchedHolding(ops, "/y", ON_X, ON_Y, [Entry(Y, "a", Match(0, 0))]);
    assert MatchesOf([Entry(Y, "a", Match(0, 0))]) == [Match(0, 0)];
  }

  /** "a" publishes `p` to "/x", and so it is delivered to "a". */
  lemma DeliveredOnX(p: Packet) returns (r: Joint<nat>)
    requires IsPublish(p) && p.header.qos == 1 && p.body.topic == "/x"
    ensures JointRun(r) && |r.steps| == 5 && Holding(r.trees[5], ON_X, ON_Y)
    ensures Holds(r.states[5], map[IdOf(p) := p], [Delivered(p, 2, 5000)])
  {
    r := OneSubscriber();
    DeliverOne(r.states[4], p);
    var after := MatchX(r.trees[4]);
    r := OneMoreJoint(r, DoPublish(0, "a", p, [Match(0, 1)], 0), after, [Entry(X, "a", Match(0, 1))]);
  }

  /** And then it publishes a QoS 2 packet of its own. */
  lemma DeliveredThenOwn(p: Packet, own: Packet) returns (r: Joint<nat>)
    requires IsPublish(p) && p.header.qos == 1 && p.body.topic == "/x" && IsPublish(own) && own.header.qos == 2
    ensures JointRun(r) && |r.steps| == 6 && Holding(r.trees[6], ON_X, ON_Y) && r.steps[5] == DoPublish(0, "a", own, [], 0)
    ensures Holds(r.states[6], InsertIfAbsent(map[IdOf(p) := p], IdOf(own), own), [Delivered(p, 2, 5000), GotPublish(own)])
  {
    r := DeliveredOnX(p);
    PublishOwn(r.states[5], p, own, [Delivered(p, 2, 5000)]);
    r := OneMoreJoint(r, DoPublish(0, "a", own, [], 0), r.trees[5], []);
  }

  lemma OwnIsAcceptedIff(p: Packet, own: Packet)
    requires IsPublish(p) && IsPublish(own)
    ensures Accepted([Delivered(p, 2, 5000), GotPublish(own)], 1) <==> IdOf(own) != IdOf(p)
  {
    ReplayNext([Delivered(p, 2, 5000), GotPublish(own)], 0);
  }

  lemma ReleaseCollided(b: Broker<nat>, p: Packet, own: Packet)
    requires IsPublish(p) && p.header.qos == 1 && IdOf(p) == 5 && IdOf(own) == 5
    requires Holds(b, map[5 := p], [Delivered(p, 2, 5000), GotPublish(own)])
    ensures var c := Release(HandlePubrel(Hold(b, 0), 0, "a", 5, [Match(0, 1)], 0));
            && 0 in c.sessions && c.sessions[0].routed == [p]
            && c.sent == b.sent + [SentPublish(0, p, c.sessions[0].nextPacketId), SentAck(0, PUBCOMP, 5)]
  {
    var ms := [Match(0, 1)];
    var c := Touch(Hold(b, 0), "a", 0);
    var taken := With(c, 0, Released(c.sessions[0], 5));
    assert ms[..|ms| - 1] == [] && Route(taken, p, ms[..|ms| - 1], 0) == Routed(taken, 1);
    assert WithQos(p, 1) == p && Route(taken, p, ms, 0).b == Send(taken, 0, p, 0);
  }

  /** Under the delivered packet's id the client's own PUBLISH is not accepted, and its PUBREL routes
      the delivered packet, so that the client gets it again. */
  lemma DeliveryCollision() returns (r: Joint<nat>)
    ensures JointRun(r) && |r.steps| == 7
    ensures var p, own := PublishPacket(1, "/x", 5), PublishPacket(2, "/y", 5);
            && r.steps[5] == DoPublish(0, "a", own, [], 0) && 0 in r.states[6].sessions
            && |r.states[6].sessions[0].history| == 2 && !Accepted(r.states[6].sessions[0].history, 1)
            && r.steps[6] == DoPubrel(0, "a", 5, [Match(0, 1)], 0) && 0 in r.states[7].sessions
            && r.states[7].sessions[0].routed == [p]
            && r.states[7].sent
               == r.states[6].sent + [SentPublish(0, p, r.states[7].sessions[0].nextPacketId), SentAck(0, PUBCOMP, 5)]
  {
    var p, own := PublishPacket(1, "/x", 5), PublishPacket(2, "/y", 5);
    r := DeliveredThenOwn(p, own);
    OwnIsAcceptedIff(p, own);
    ReleaseCollided(r.states[6], p, own);
    var after := MatchX(r.trees[6]);
    r := OneMoreJoint(r, DoPubrel(0, "a", 5, [Match(0, 1)], 0), after, [Entry(X, "a", Match(0, 1))]);
  }

  // ---------------------------------------------------------------- a pass over the client's own packet

  /** Both events are there and the second holds its id. */
  lemma OwnIsHeld(p: Packet, own: Packet)
    requires IdOf(p) == 7 && IsPublish(own) && IdOf(own) == 2
    ensures Holder([Delivered(p, 2, 5000), GotPublish(own)], 2, 1)
  {
  }

  lemma PassSendsOwn(b: Broker<nat>, p: Packet, own: Packet)
    requires IsPublish(own) && IdOf(own) == 2 && IdOf(p) == 7 && own.header.qos == 2
    requires Holds(b, map[7 := p, 2 := own], [Delivered(p, 2, 5000), GotPublish(own)])
    ensures Enabled(b, DoRetransmit(ENTRY, 5000, [Match(0, 0)], 5000))
    ensures var c := Retransmit(b, ENTRY, [Match(0, 0)], 5000);
            && c.sent == b.sent + [SentPublish(0, own.(header := own.header.(dup := true, qos := 0)), 0)]
            && c.registry == b.registry && c.sessions == b.sessions && c.transports == b.transports && c.clock == 5000
            && SendsEvent(c, DoPubrel(0, "a", 2, [Match(0, 0)], 5001), 0, 1)
    ensures SendsEvent(b, DoRetransmit(ENTRY, 5000, [Match(0, 0)], 5000), 0, 1)
  {
    OwnIsHeld(p, own);
    var ms, dup := [Match(0, 0)], WithDup(own);
    var c := b.(clock := 5000);
    assert ms[..|ms| - 1] == [] && Route(c, dup, ms[..|ms| - 1], 5000) == Routed(c, 2);
    assert Route(c, dup, ms, 5000).b == Send(c, 0, WithQos(dup, 0), 5000);
  }

  lemma PubrelSendsOwn(b: Broker<nat>, own: Packet)
    requires RegistryOk(b) && "a" in b.registry && b.registry["a"] == 0 && 0 in b.sessions && b.sessions[0].connected
    requires b.sessions[0].transport == Some(0) && 0 in b.transports
    requires IsPublish(own) && own.header.qos == 2 && 2 in b.sessions[0].inflight && b.sessions[0].inflight[2] == own
    ensures Release(HandlePubrel(Hold(b, 0), 0, "a", 2, [Match(0, 0)], 5001)).sent
         == b.sent + [SentPublish(0, WithQos(own, 0), 0), SentAck(0, PUBCOMP, 2)]
  {
    var ms := [Match(0, 0)];
    var c := Touch(Hold(b, 0), "a", 5001);
    var taken := With(c, 0, Released(c.sessions[0], 2));
    assert ms[..|ms| - 1] == [] && Route(taken, own, ms[..|ms| - 1], 5001) == Routed(taken, 2);
    assert Route(taken, own, ms, 5001).b == Send(taken, 0, WithQos(own, 0), 5001);
  }

  /** The run up to the pass. */
  lemma PassRoutesOwnFirst() returns (r: Joint<nat>)
    ensures JointRun(r) && |r.steps| == 7 && Holding(r.trees[7], ON_X, ON_Y)
    ensures var p, own := PublishPacket(1, "/x", 7), PublishPacket(2, "/y", 2);
            && Holds(r.states[6], map[7 := p, 2 := own], [Delivered(p, 2, 5000), GotPublish(own)])
            && r.states[7] == Retransmit(r.states[6], ENTRY, [Match(0, 0)], 5000)
    ensures r.steps[6] == DoRetransmit(ENTRY, 5000, [Match(0, 0)], 5000)
  {
    var p, own := PublishPacket(1, "/x", 7), PublishPacket(2, "/y", 2);
    r := DeliveredThenOwn(p, own);
    PassSendsOwn(r.states[6], p, own);
    var after := MatchY(r.trees[6]);
    r := OneMoreJoint(r, DoRetransmit(ENTRY, 5000, [Match(0, 0)], 5000), after, [Entry(Y, "a", Match(0, 0))]);
  }

  const RELEASE_OWN: Step<nat> := DoPubrel(0, "a", 2, [Match(0, 0)], 5001)
  const OWN_HISTORY := [Delivered(PublishPacket(1, "/x", 7), 2, 5000), GotPublish(PublishPacket(2, "/y", 2))]

  lemma PassSent() returns (r: Joint<nat>, after: Ops)
    ensures JointRun(r) && |r.steps| == 7 && r.steps[6] == DoRetransmit(ENTRY, 5000, [Match(0, 0)], 5000)
    ensures 0 in r.states[6].sessions && r.states[6].sessions[0].history == OWN_HISTORY && Accepted(OWN_HISTORY, 1)
    ensures SendsEvent(r.states[6], r.steps[6], 0, 1)
    ensures r.states[7].sent == r.states[6].sent + [SentPublish(0, Packet(Header(PUBLISH, true, 0, false), 8, Publish("/y", 2, [])), 0)]
    ensures Enabled(r.states[7], RELEASE_OWN)
            && SendsEvent(r.states[7], RELEASE_OWN, 0, 1)
    ensures RegistryOk(r.states[7])
    ensures Next(r.states[7], RELEASE_OWN).sent
         == r.states[7].sent + [SentPublish(0, WithQos(PublishPacket(2, "/y", 2), 0), 0), SentAck(0, PUBCOMP, 2)]
    ensures TreeDid(r.states[7], RELEASE_OWN, r.trees[7], after, [Entry(Y, "a", Match(0, 0))])
  {
    var p, own := PublishPacket(1, "/x", 7), PublishPacket(2, "/y", 2);
    r := PassRoutesOwnFirst();
    PassSendsOwn(r.states[6], p, own);
    OwnIsAcceptedIff(p, own);
    ReachableStates(r.states, r.steps, 7);
    PubrelSendsOwn(r.states[7], own);
    after := MatchY(r.trees[7]);
  }

  /** Exactly once fails for a session with a delivery: the delivery of a packet with id 7 is given the
      id 2, the client publishes a packet of its own under id 2, and the pass at 5000 ms, looking for
      the delivery, sends the client's own packet before its PUBREL, which then sends it again. */
  lemma PassRoutesOwnPacket() returns (first: Joint<nat>, r: Joint<nat>)
    ensures JointRun(r) && JointRun(first) && |first.steps| == 7
    ensures r.steps == first.steps + [RELEASE_OWN] && first.states <= r.states
    ensures 0 in first.states[6].sessions && first.states[6].sessions[0].history == OWN_HISTORY
    ensures Accepted(OWN_HISTORY, 1)
    ensures first.steps[6] == DoRetransmit(ENTRY, 5000, [Match(0, 0)], 5000)
    ensures SendsEvent(first.states[6], first.steps[6], 0, 1) && SendsEvent(first.states[7], RELEASE_OWN, 0, 1)
    ensures var own := PublishPacket(2, "/y", 2);
            && first.states[7].sent == first.states[6].sent + [SentPublish(0, own.(header := own.header.(dup := true, qos := 0)), 0)]
            && r.states[8].sent == first.states[7].sent + [SentPublish(0, WithQos(own, 0), 0), SentAck(0, PUBCOMP, 2)]
  {
    var after;
    first, after := PassSent();
    r := OneMoreJoint(first, RELEASE_OWN, after, [Entry(Y, "a", Match(0, 0))]);
  }

  // ---------------------------------------------------------------- a resumption over the session's own transport

  /** "b" listens on "/y"; "a" has published `own` to it and has not released it yet. */
  ghost predicate OwnStored(b: Broker<nat>, own: Packet)
  {
    && b.registry == map["a" := 0, "b" := 1] && b.sessions.Keys == {0, 1} && Fresh(b, 1, "b") && b.clock == 0
    && b.sessions[0].clientId == "a" && b.sessions[0].transport == Some(0) && 0 in b.transports && 0 < b.nextTransport
    && b.sessions[0].inflight == map[5 := own] && b.sessions[0].inflightAck == map[]
    && b.sessions[0].history == [GotPublish(own)]
  }

  lemma StoreOwn(b: Broker<nat>, own: Packet)
    requires TwoFresh(b) && RegistryOk(b) && 0 < b.nextTransport && own.header.qos == 2 && IsPublish(own) && IdOf(own) == 5
    ensures OwnStored(Release(HandlePublish(Hold(b, 0), 0, "a", own, [], 0)), own)
  {
  }

  lemma OwnStoredRun(own: Packet) returns (r: Joint<nat>)
    requires own.header.qos == 2 && IsPublish(own) && IdOf(own) == 5
    ensures JointRun(r) && |r.steps| == 6 && OwnStored(r.states[6], own)
    ensures Holding(r.trees[6], map[], map["b" := Match(1, 0)])
  {
    r := TwoClients();
    r := SubscribeOne(r, 1, "b", Filter("/y", 0), map[], map[]);
    ReachableStates(r.states, r.steps, 5);
    StoreOwn(r.states[5], own);
    r := OneMoreJoint(r, DoPublish(0, "a", own, [], 0), r.trees[5], []);
  }

  const AGAIN: Step<nat> := DoConnect(0, ConnectRequest(4, false, 0, "a"), 2, ResendOrder([5], []), 0)

  /** The state after that CONNECT. */
  ghost predicate ConnectedAgain(b: Broker<nat>, own: Packet)
  {
    && b.registry == map["a" := 0, "b" := 1] && Fresh(b, 1, "b") && b.clock == 0 && 0 in b.sessions
    && b.sessions[0].inflight == map[5 := own] && b.sessions[0].history == [GotPublish(own), Resumed]
  }

  lemma AgainIsEnabled(b: Broker<nat>, own: Packet)
    requires OwnStored(b, own) && IsPublish(own) && IdOf(own) == 5
    ensures ResumesOver(b, 0, AGAIN.request) && Enabled(b, AGAIN) && SendsEvent(b, AGAIN, 0, 0)
  {
    assert Holder([GotPublish(own)], 5, 0);
  }

  lemma AgainWrites(b: Broker<nat>, own: Packet)
    requires KeepAliveInv(b) && OwnStored(b, own) && IsPublish(own) && Enabled(b, AGAIN) && ResumesOver(b, 0, AGAIN.request)
    ensures Next(b, AGAIN).sent == b.sent + [SentPublish(0, own.(header := own.header.(dup := true)), 5), SentConnack(0, true, 0)]
  {
    ConnectWrites(b, 0, AGAIN.request, 2, AGAIN.resend, 0);
    OneResent(own);
  }

  lemma OneResent(own: Packet)
    requires IsPublish(own)
    ensures ResendEach(0, map[5 := own], [5]) == [SentPublish(0, own.(header := own.header.(dup := true)), 5)]
  {
    assert [5][..0] == [];
  }

  lemma AgainLeads(b: Broker<nat>, own: Packet)
    requires RegistryOk(b) && OwnStored(b, own) && Enabled(b, AGAIN)
    ensures ConnectedAgain(Next(b, AGAIN), own)
  {
  }

  lemma ReleaseResent(b: Broker<nat>, own: Packet)
    requires ConnectedAgain(b, own) && IsPublish(own) && own.header.qos == 2 && IdOf(own) == 5
    ensures SendsEvent(b, DoPubrel(0, "a", 5, [Match(1, 0)], 0), 0, 0)
    ensures Release(HandlePubrel(Hold(b, 0), 0, "a", 5, [Match(1, 0)], 0)).sent
         == b.sent + [SentPublish(1, WithQos(own, 0), 0), SentAck(0, PUBCOMP, 5)]
  {
    assert Holder([GotPublish(own), Resumed], 5, 0);
    var ms := [Match(1, 0)];
    var c := Touch(Hold(b, 0), "a", 0);
    var taken := With(c, 0, Released(c.sessions[0], 5));
    assert ms[..|ms| - 1] == [] && Route(taken, own, ms[..|ms| - 1], 0) == Routed(taken, 2);
    assert Route(taken, own, ms, 0).b == Send(taken, 1, WithQos(own, 0), 0);
  }

  /** The run up to it. */
  lemma OwnTransportFirst(own: Packet) returns (r: Joint<nat>)
    requires own.header.qos == 2 && IsPublish(own) && IdOf(own) == 5
    ensures JointRun(r) && |r.steps| == 7 && ConnectedAgain(r.states[7], own)
    ensures Holding(r.trees[7], map[], map["b" := Match(1, 0)])
    ensures r.steps[6] == AGAIN && SendsEvent(r.states[6], AGAIN, 0, 0)
    ensures r.states[7].sent == r.states[6].sent + [SentPublish(0, own.(header := own.header.(dup := true)), 5), SentConnack(0, true, 0)]
  {
    r := OwnStoredRun(own);
    ReachableStates(r.states, r.steps, 6);
    AgainIsEnabled(r.states[6], own);
    AgainWrites(r.states[6], own);
    AgainLeads(r.states[6], own);
    r := OneMoreJoint(r, AGAIN, r.trees[6], []);
  }

  lemma MatchB(ops: Ops) returns (after: Ops)
    requires Holding(ops, map[], map["b" := Match(1, 0)])
    ensures Matched(ops, after, "/y", [Entry(Y, "b", Match(1, 0))], [Match(1, 0)])
  {
    Topics();
    after := MatchedHolding(ops, "/y", map[], map["b" := Match(1, 0)], [Entry(Y, "b", Match(1, 0))]);
    assert MatchesOf([Entry(Y, "b", Match(1, 0))]) == [Match(1, 0)];
  }

  const RELEASE: Step<nat> := DoPubrel(0, "a", 5, [Match(1, 0)], 0)

  lemma ReleaseSearches(b: Broker<nat>, own: Packet, ops: Ops) returns (after: Ops)
    requires RegistryOk(b) && ConnectedAgain(b, own) && IsPublish(own) && own.body.topic == "/y"
    requires own.header.qos == 2 && IdOf(own) == 5 && Holding(ops, map[], map["b" := Match(1, 0)])
    ensures Enabled(b, RELEASE) && SendsEvent(b, RELEASE, 0, 0)
    ensures Next(b, RELEASE).sent
         == b.sent + [SentPublish(1, WithQos(own, 0), 0), SentAck(0, PUBCOMP, 5)]
    ensures TreeDid(b, RELEASE, ops, after, [Entry(Y, "b", Match(1, 0))])
  {
    ReleaseResent(b, own);
    after := MatchB(ops);
  }

  /** A client that connects again over its own transport is sent its own unreleased packet, with the
      DUP flag, before the CONNACK; its PUBREL then routes the packet. The session has had no delivery. */
  lemma OwnTransportResends() returns (first: Joint<nat>, r: Joint<nat>)
    ensures JointRun(r) && JointRun(first) && |first.steps| == 7
    ensures r.steps == first.steps + [RELEASE] && first.states <= r.states
    ensures first.steps[6] == AGAIN && SendsEvent(first.states[6], AGAIN, 0, 0)
    ensures SendsEvent(first.states[7], RELEASE, 0, 0)
    ensures var own := PublishPacket(2, "/y", 5);
            && first.states[7].sent == first.states[6].sent + [SentPublish(0, own.(header := own.header.(dup := true)), 5), SentConnack(0, true, 0)]
            && r.states[8].sent == first.states[7].sent + [SentPublish(1, WithQos(own, 0), 0), SentAck(0, PUBCOMP, 5)]
  {
    var own := PublishPacket(2, "/y", 5);
    first := OwnTransportFirst(own);
    ReachableStates(first.states, first.steps, 7);
    var after := ReleaseSearches(first.states[7], own, first.trees[7]);
    r := OneMoreJoint(first, RELEASE, after, [Entry(Y, "b", Match(1, 0))]);
  }

  // ---------------------------------------------------------------- a copy that is routed again

  const COPY_ENTRY: Timed<Retry<nat>> := Timed(5000, Retry(2, PUBLISH, 1))
  const RELEASE_TWO: Step<nat> := DoPubrel(0, "a", 2, [Match(1, 2)], 0)
  const COPY_PASS: Step<nat> := DoRetransmit(COPY_ENTRY, 5000, [Match(1, 2)], 5000)

  /** "b" listens on "/y" with QoS 2; "a" has published `own` to it and has not released it yet. */
  ghost predicate OwnWaits(b: Broker<nat>, own: Packet)
  {
    && b.registry == map["a" := 0, "b" := 1] && b.sessions.Keys == {0, 1} && Fresh(b, 1, "b") && b.clock == 0
    && b.sessions[0].clientId == "a" && b.sessions[0].inflight == map[2 := own]
    && b.sessions[0].history == [GotPublish(own)] && b.retransmit == multiset{}
  }

  /** It has been released, and a copy of it is stored for "b". */
  ghost predicate CopyStored(b: Broker<nat>, own: Packet)
  {
    && b.registry == map["a" := 0, "b" := 1] && b.sessions.Keys == {0, 1} && b.clock == 0
    && b.sessions[0].history == [GotPublish(own), GotPubrel(2)]
    && b.sessions[1].clientId == "b" && b.sessions[1].connected && b.sessions[1].transport == Some(1) && 1 in b.transports
    && b.sessions[1].inflight == map[2 := own] && b.sessions[1].history == [Delivered(own, 2, 5000)]
    && b.sessions[1].nextPacketId == 2 && b.retransmit == multiset{COPY_ENTRY}
  }

  lemma WaitsAfter(b: Broker<nat>, own: Packet)
    requires TwoFresh(b) && RegistryOk(b) && own.header.qos == 2 && IsPublish(own) && IdOf(own) == 2
    ensures OwnWaits(Release(HandlePublish(Hold(b, 0), 0, "a", own, [], 0)), own)
  {
  }

  lemma OwnWaitsRun(own: Packet) returns (r: Joint<nat>)
    requires own.header.qos == 2 && IsPublish(own) && IdOf(own) == 2
    ensures JointRun(r) && |r.steps| == 6 && OwnWaits(r.states[6], own)
    ensures Holding(r.trees[6], map[], map["b" := Match(1, 2)])
  {
    r := TwoClients();
    r := SubscribeOne(r, 1, "b", Filter("/y", 2), map[], map[]);
    ReachableStates(r.states, r.steps, 5);
    WaitsAfter(r.states[5], own);
    r := OneMoreJoint(r, DoPublish(0, "a", own, [], 0), r.trees[5], []);
  }

  lemma MatchTwo(ops: Ops) returns (after: Ops)
    requires Holding(ops, map[], map["b" := Match(1, 2)])
    ensures Holding(after, map[], map["b" := Match(1, 2)])
    ensures Matched(ops, after, "/y", [Entry(Y, "b", Match(1, 2))], [Match(1, 2)])
  {
    Topics();
    after := MatchedHolding(ops, "/y", map[], map["b" := Match(1, 2)], [Entry(Y, "b", Match(1, 2))]);
    assert MatchesOf([Entry(Y, "b", Match(1, 2))]) == [Match(1, 2)];
  }

  lemma ReleaseSendsOne(b: Broker<nat>, own: Packet)
    requires OwnWaits(b, own) && own.header.qos == 2 && IsPublish(own)
    ensures HandlePubrel(Hold(b, 0), 0, "a", 2, [Match(1, 2)], 0)
         == Emit(Send(Releasing(Hold(b, 0), "a", 2, 0), 1, own, 0), SentAck(0, PUBCOMP, 2))
  {
    var ms, taken := [Match(1, 2)], Releasing(Hold(b, 0), "a", 2, 0);
    assert ms[..|ms| - 1] == [] && Route(taken, own, ms[..|ms| - 1], 0) == Routed(taken, 2);
    assert WithQos(own, 2) == own && Route(taken, own, ms, 0).b == Send(taken, 1, own, 0);
  }

  lemma ReleaseStoresCopy(b: Broker<nat>, own: Packet)
    requires OwnWaits(b, own) && own.header.qos == 2 && IsPublish(own) && IdOf(own) == 2
    ensures var c := Release(HandlePubrel(Hold(b, 0), 0, "a", 2, [Match(1, 2)], 0));
            CopyStored(c, own) && c.sent == b.sent + [SentPublish(1, own, 2), SentAck(0, PUBCOMP, 2)]
  {
    ReleaseSendsOne(b, own);
  }

  lemma OwnWaitsIsSent(b: Broker<nat>, own: Packet)
    requires OwnWaits(b, own) && IsPublish(own) && IdOf(own) == 2
    ensures SendsEvent(b, RELEASE_TWO, 0, 0)
  {
    assert Holder([GotPublish(own)], 2, 0);
  }

  lemma PassSendsCopy(b: Broker<nat>, own: Packet)
    requires CopyStored(b, own) && own.header.qos == 2 && IsPublish(own) && IdOf(own) == 2
    ensures Enabled(b, COPY_PASS) && SendsEvent(b, COPY_PASS, 1, 0) && forall j: nat :: !SendsEvent(b, COPY_PASS, 0, j)
    ensures Retransmit(b, COPY_ENTRY, [Match(1, 2)], 5000).sent == b.sent + [SentPublish(1, own.(header := own.header.(dup := true)), 3)]
  {
    assert Holder([Delivered(own, 2, 5000)], 2, 0);
    var ms, dup, c := [Match(1, 2)], WithDup(own), b.(clock := 5000);
    assert ms[..|ms| - 1] == [] && Route(c, dup, ms[..|ms| - 1], 5000) == Routed(c, 2);
    assert WithQos(dup, 2) == dup && Route(c, dup, ms, 5000).b == Send(c, 1, dup, 5000);
  }

  lemma ReleaseIsStep(b: Broker<nat>, own: Packet, ops: Ops) returns (after: Ops)
    requires RegistryOk(b) && OwnWaits(b, own) && own.header.qos == 2 && IsPublish(own) && IdOf(own) == 2
    requires own.body.topic == "/y" && Holding(ops, map[], map["b" := Match(1, 2)])
    ensures Enabled(b, RELEASE_TWO) && TreeDid(b, RELEASE_TWO, ops, after, [Entry(Y, "b", Match(1, 2))])
    ensures Holding(after, map[], map["b" := Match(1, 2)]) && SendsEvent(b, RELEASE_TWO, 0, 0)
    ensures var c := Next(b, RELEASE_TWO);
            && CopyStored(c, own) && Records(b, c, 1, 0)
            && c.sent == b.sent + [SentPublish(1, own, 2), SentAck(0, PUBCOMP, 2)]
  {
    OwnWaitsIsSent(b, own);
    ReleaseStoresCopy(b, own);
    after := MatchTwo(ops);
  }

  lemma PassIsStep(b: Broker<nat>, own: Packet, ops: Ops) returns (after: Ops)
    requires RegistryOk(b) && CopyStored(b, own) && own.header.qos == 2 && IsPublish(own) && IdOf(own) == 2
    requires own.body.topic == "/y" && Holding(ops, map[], map["b" := Match(1, 2)])
    ensures Enabled(b, COPY_PASS) && TreeDid(b, COPY_PASS, ops, after, [Entry(Y, "b", Match(1, 2))])
    ensures SendsEvent(b, COPY_PASS, 1, 0) && forall j: nat :: !SendsEvent(b, COPY_PASS, 0, j)
    ensures Next(b, COPY_PASS).sent == b.sent + [SentPublish(1, own.(header := own.header.(dup := true)), 3)]
  {
    PassSendsCopy(b, own);
    after := MatchTwo(ops);
  }

  /** The run up to the release, and what the release leaves. */
  lemma CopyStoredRun(own: Packet) returns (r: Joint<nat>)
    requires own.header.qos == 2 && IsPublish(own) && IdOf(own) == 2 && own.body.topic == "/y"
    ensures JointRun(r) && |r.steps| == 7 && r.steps[6] == RELEASE_TWO && CopyStored(r.states[7], own)
    ensures SendsEvent(r.states[6], RELEASE_TWO, 0, 0) && RecordedBy(r.states, 6, 1, 0)
    ensures r.states[7].sent == r.states[6].sent + [SentPublish(1, own, 2), SentAck(0, PUBCOMP, 2)]
    ensures Holding(r.trees[7], map[], map["b" := Match(1, 2)])
  {
    var waiting := OwnWaitsRun(own);
    var after := ReleaseIsStep(waiting.states[6], own, waiting.trees[6]);
    r := OneMoreJoint(waiting, RELEASE_TWO, after, [Entry(Y, "b", Match(1, 2))]);
  }

  ghost predicate BothSent(before: seq<Broker<nat>>, states: seq<Broker<nat>>, steps: seq<Step<nat>>)
  {
    && |before| == 8 && |states| == 9 && |steps| == 8 && before <= states
    && steps[6] == RELEASE_TWO && SendsEvent(before[6], RELEASE_TWO, 0, 0) && RecordedBy(before, 6, 1, 0)
    && steps[7] == COPY_PASS && SendsEvent(before[7], COPY_PASS, 1, 0)
  }

  lemma StillCarried(before: seq<Broker<nat>>, states: seq<Broker<nat>>, steps: seq<Step<nat>>)
    requires BothSent(before, states, steps)
    ensures Carries(states, steps, 6, 0, 0) && Carries(states, steps, 7, 0, 0)
  {
    assert states[6] == before[6] && states[7] == before[7];
    SenderCarries(states, steps, 6, 0, 0);
    CopySenderCarries(states, steps, 6, 0, 0, 1, 0, 7);
  }

  lemma CopyPassRun(own: Packet) returns (first: Joint<nat>, r: Joint<nat>)
    requires own.header.qos == 2 && IsPublish(own) && IdOf(own) == 2 && own.body.topic == "/y"
    ensures JointRun(r) && JointRun(first) && r.steps == first.steps + [COPY_PASS]
    ensures BothSent(first.states, r.states, r.steps) && CopyStored(first.states[7], own)
    ensures first.states[7].sent == first.states[6].sent + [SentPublish(1, own, 2), SentAck(0, PUBCOMP, 2)]
    ensures r.states[8].sent == first.states[7].sent + [SentPublish(1, own.(header := own.header.(dup := true)), 3)]
  {
    first := CopyStoredRun(own);
    ReachableStates(first.states, first.steps, 7);
    var after := PassIsStep(first.states[7], own, first.trees[7]);
    r := OneMoreJoint(first, COPY_PASS, after, [Entry(Y, "b", Match(1, 2))]);
  }

  /** Exactly once fails for a message whose publisher has had no delivery and connected once: its PUBREL
      stores a copy with the subscriber, under the publisher's packet id 2, which is also the id that the
      subscriber's session allocates for it; the pass at 5000 ms finds the copy and routes it afresh, so
      that the subscriber gets the message again, under id 3. Two steps carry it. */
  lemma CopyIsSentAgain() returns (first: Joint<nat>, r: Joint<nat>)
    ensures JointRun(r) && |r.steps| == 8 && r.steps[6] == RELEASE_TWO && r.steps[7] == COPY_PASS && first.states <= r.states
    ensures var own := PublishPacket(2, "/y", 2);
            && |first.states| == 8 && CopyStored(first.states[7], own)
            && first.states[7].sent == first.states[6].sent + [SentPublish(1, own, 2), SentAck(0, PUBCOMP, 2)]
            && r.states[8].sent == first.states[7].sent + [SentPublish(1, own.(header := own.header.(dup := true)), 3)]
    ensures Carries(r.states, r.steps, 6, 0, 0) && Carries(r.states, r.steps, 7, 0, 0)
    ensures forall j: nat :: !SendsEvent(first.states[7], COPY_PASS, 0, j)
  {
    first, r := CopyPassRun(PublishPacket(2, "/y", 2));
    StillCarried(first.states, r.states, r.steps);
  }

  // ---------------------------------------------------------------- a clean session in the place of another

  lemma ConnectClean(b: Broker<nat>, now: int)
    requires b.registry == map["a" := 0] && b.sessions.Keys == {0} && b.sessions[0].clientId == "a" && b.clock <= now
    requires 1 < b.nextTransport && 1 in b.transports && b.sessions[0].transport == Some(0)
    ensures var step, r := DoConnect(1, ConnectRequest(4, true, 0, "a"), 1, NO_RESEND, now), ConnectRequest(4, true, 0, "a");
            && RegistryOk(b) && Enabled(b, step)
            && var c := Next(b, step);
               && c.registry == map["a" := 1] && c.sessions.Keys == {0, 1} && c.sessions[0].clientId == "a"
               && c.sessions[1] == FirstData(r, 1, now) && 1 in c.transports
               && c.retransmit == b.retransmit && c.clock == now
  {
  }

  lemma PublishToFreed(b: Broker<nat>, p: Packet)
    requires b.registry == map["a" := 1] && b.sessions.Keys == {0, 1} && b.sessions[0].clientId == "a" && p.header.qos == 0
    ensures Release(HandlePublish(Hold(b, 1), 1, "a", p, [Match(0, 1)], 0)).sent == b.sent
  {
    var c, ms := Touch(Hold(b, 1), "a", 0), [Match(0, 1)];
    assert ms[..|ms| - 1] == [] && Route(c, p, ms[..|ms| - 1], 0) == Routed(c, 0);
  }

  lemma CleanReconnect() returns (r: Joint<nat>)
    ensures JointRun(r) && |r.steps| == 6 && Holding(r.trees[6], ON_X, ON_Y)
    ensures r.states[6].registry == map["a" := 1] && r.states[6].sessions.Keys == {0, 1} && r.states[6].clock == 0
            && r.states[6].sessions[0].clientId == "a" && r.states[6].sessions[1].connected && Online(r.states[6], 1)
  {
    r := OneSubscriber();
    r := OneMoreJoint(r, DoOpen, r.trees[4], []);
    ConnectClean(r.states[5], 0);
    r := OneMoreJoint(r, DoConnect(1, ConnectRequest(4, true, 0, "a"), 1, NO_RESEND, 0), r.trees[5], []);
  }

  /** A client that has subscribed, and then connects anew with a clean session, is registered and
      connected, and the tree still lists it; but the subscription names the freed session, so that it
      gets nothing. */
  lemma CleanReconnectIsDeaf() returns (r: Joint<nat>)
    ensures JointRun(r) && |r.steps| == 7
    ensures r.found[6] == [Entry(X, "a", Match(0, 1))] && r.steps[6].DoPublish? && r.steps[6].matches == [Match(0, 1)]
    ensures r.states[6].registry == map["a" := 1] && 1 in r.states[6].sessions && r.states[6].sessions[1].connected
            && Online(r.states[6], 1) && r.states[7].sent == r.states[6].sent
  {
    var p := PublishPacket(0, "/x", 0);
    r := CleanReconnect();
    PublishToFreed(r.states[6], p);
    var after := MatchX(r.trees[6]);
    r := OneMoreJoint(r, DoPublish(1, "a", p, [Match(0, 1)], 0), after, [Entry(X, "a", Match(0, 1))]);
  }

  /** A delivery whose session is freed before it is due blocks the retransmission heap for ever. */
  lemma FreedTopBlocks() returns (r: Joint<nat>)
    ensures JointRun(r) && |r.steps| == 7 && Blocks(r.states[7], ENTRY)
  {
    r := DeliveredOnX(PublishPacket(1, "/x", 7));
    r := OneMoreJoint(r, DoOpen, r.trees[5], []);
    ConnectClean(r.states[6], 5000);
    r := OneMoreJoint(r, DoConnect(1, ConnectRequest(4, true, 0, "a"), 1, NO_RESEND, 5000), r.trees[6], []);
  }

  // ---------------------------------------------------------------- two sessions on one transport

  function MonitoredConnect(client: string, keepAlive: uint16): ConnectRequest
  {
    ConnectRequest(4, false, keepAlive, client)
  }

  /** Clients "a" and "b" came over the same transport; "a" is due long before "b". */
  ghost predicate Sharing(b: Broker<nat>)
  {
    && b.registry == map["a" := 0, "b" := 1] && b.sessions.Keys == {0, 1} && b.clock == 0 && 0 in b.transports
    && b.sessions[0] == FirstData(MonitoredConnect("a", 1), 0, 0).(expiryMs := 1500)
    && b.sessions[1] == FirstData(MonitoredConnect("b", 10), 0, 0).(expiryMs := 15000)
    && b.expiry == multiset{Timed(1500, 0), Timed(15000, 1)}
  }

  /** Only "a" has come. */
  ghost predicate FirstOfTwo(b: Broker<nat>)
  {
    && b.registry == map["a" := 0] && b.sessions.Keys == {0} && b.clock == 0 && 0 in b.transports && b.nextTransport == 1
    && b.sessions[0] == FirstData(MonitoredConnect("a", 1), 0, 0).(expiryMs := 1500)
    && b.expiry == multiset{Timed(1500, 0)}
  }

  lemma ConnectFirst(b: Broker<nat>)
    requires b == Open(Initial(0))
    ensures RegistryOk(b) && Enabled(b, DoConnect(0, MonitoredConnect("a", 1), 0, NO_RESEND, 0))
    ensures FirstOfTwo(Next(b, DoConnect(0, MonitoredConnect("a", 1), 0, NO_RESEND, 0)))
  {
  }

  lemma ConnectSecond(b: Broker<nat>)
    requires FirstOfTwo(b)
    ensures RegistryOk(b) && Enabled(b, DoConnect(0, MonitoredConnect("b", 10), 1, NO_RESEND, 0))
    ensures Sharing(Next(b, DoConnect(0, MonitoredConnect("b", 10), 1, NO_RESEND, 0)))
  {
  }

  lemma ShareTransport() returns (states: seq<Broker<nat>>, steps: seq<Step<nat>>)
    ensures Execution(states, steps) && |steps| == 3 && Sharing(states[3])
  {
    states, steps := [Initial(0)], [];
    states, steps := OneMoreStep(states, steps, DoOpen);
    ConnectFirst(states[1]);
    states, steps := OneMoreStep(states, steps, DoConnect(0, MonitoredConnect("a", 1), 0, NO_RESEND, 0));
    ConnectSecond(states[2]);
    states, steps := OneMoreStep(states, steps, DoConnect(0, MonitoredConnect("b", 10), 1, NO_RESEND, 0));
  }

  lemma ExpireCutsBoth(b: Broker<nat>)
    requires Sharing(b) && KeepAliveInv(b)
    ensures Enabled(b, DoExpire([Timed(1500, 0)], 1500))
    ensures Online(b, 1) && b.sessions[1].Deadline() == 15000
    ensures var c := Expire(b, [Timed(1500, 0)], 1500); 1 in c.sessions && Live(c, 1) && !Online(c, 1)
  {
    OnlyFirstIsDue(b);
    KeepAliveSpares(b, [Timed(1500, 0)], 1500, 1);
  }

  /** A client that is not overdue loses its transport, because an overdue one shared it: at 1500 ms
      the deadline of "a" has come and that of "b" is 13500 ms ahead. */
  lemma SharedTransportIsCut() returns (states: seq<Broker<nat>>, steps: seq<Step<nat>>)
    ensures Execution(states, steps) && |steps| == 4 && steps[3] == DoExpire([Timed(1500, 0)], 1500)
    ensures 1 in states[3].sessions && Online(states[3], 1) && states[3].sessions[1].Deadline() == 15000
    ensures 1 in states[4].sessions && Live(states[4], 1) && !Online(states[4], 1)
  {
    states, steps := ShareTransport();
    ReachableStates(states, steps, 3);
    ExpireCutsBoth(states[3]);
    states, steps := OneMoreStep(states, steps, DoExpire([Timed(1500, 0)], 1500));
  }

  lemma OnlyFirstIsDue(b: Broker<nat>)
    requires Sharing(b)
    ensures var order := [Timed(1500, 0)];
            && DrainOrder(b, order, 1500) && (forall e | e in order :: Live(b, e.item))
            && 0 in Overdue(b, order, 1500)
  {
    var order := [Timed(1500, 0)];
    assert multiset(order) == multiset{Timed(1500, 0)};
    assert b.expiry - multiset(order) == multiset{Timed(15000, 1)};
    assert order[..0] == [] && Overdue(b, order[..0], 1500) == [];
    assert Overdue(b, order, 1500) == [0];
  }
}
