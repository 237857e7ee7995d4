/** What each step of the broker does to the topic tree, whose state is the history of its operations. */
module TreeSteps {
  import opened Packets
  import opened Sessions
  import opened BrokerModel
  import opened TopicHistory
  import TopicNames

  ghost function MatchesOf<S>(entries: seq<Entry<Match<S>>>): seq<Match<S>>
  {
    seq(|entries|, i requires 0 <= i < |entries| => entries[i].sub)
  }

  /** The entries are what a lookup of the topic finds in a tree with the first history, `ms` lists
      their subscriptions, and the lookup has become part of the history. */
  ghost predicate Matched<S>(before: seq<Op<Match<S>>>, after: seq<Op<Match<S>>>, topic: string,
                             entries: seq<Entry<Match<S>>>, ms: seq<Match<S>>)
  {
    var words := TopicNames.SplitTopic(topic);
    after == before + [Op.Lookup(words)] && FoundBy(before, words, entries) && ms == MatchesOf(entries)
  }

  /** What resending a stored packet does to the tree: a PUBLISH is matched afresh. */
  ghost predicate Rematched<S>(before: seq<Op<Match<S>>>, after: seq<Op<Match<S>>>, r: Retry<S>,
                               p: Packet, entries: seq<Entry<Match<S>>>, ms: seq<Match<S>>)
  {
    if r.packetType == PUBLISH then p.body.Publish? && Matched(before, after, p.body.topic, entries, ms)
    else after == before
  }

  /** What a retransmission pass does to the tree. */
  ghost predicate PassSearched<S>(b: Broker<S>, r: Retry<S>, before: seq<Op<Match<S>>>, after: seq<Op<Match<S>>>,
                                  entries: seq<Entry<Match<S>>>, ms: seq<Match<S>>)
  {
    r.session in b.sessions
    && Rematched(before, after, r, StoredPacket(b.sessions[r.session], r.packetId, r.packetType), entries, ms)
  }

  /** The tree is searched for the topic of the packet released, and only if there is one. */
  ghost predicate Rerouted<S>(d: Session, id: uint16, before: seq<Op<Match<S>>>, after: seq<Op<Match<S>>>,
                              entries: seq<Entry<Match<S>>>, ms: seq<Match<S>>)
  {
    if id in d.inflight
    then d.inflight[id].body.Publish? && Matched(before, after, d.inflight[id].body.topic, entries, ms)
    else after == before
  }

  /** What a filter of a SUBSCRIBE does to the tree: nothing if its QoS is invalid. */
  ghost function SubscribeOp<S>(f: Filter, client: string, s: S): seq<Op<Match<S>>>
  {
    if f.qos < 3 then [Op.Subscribe(TopicNames.SplitTopic(f.topic), client, Match(s, f.qos))] else []
  }

  /** What a client's SUBSCRIBE adds to the tree's history. */
  ghost function Subscribed<S>(registry: map<string, S>, client: string, fs: seq<Filter>): seq<Op<Match<S>>>
  {
    if fs == [] || client !in registry then []
    else Subscribed(registry, client, fs[..|fs| - 1]) + SubscribeOp(fs[|fs| - 1], client, registry[client])
  }

  lemma SubscribedNext<S>(before: seq<Op<Match<S>>>, registry: map<string, S>, client: string,
                          fs: seq<Filter>, i: nat)
    requires i < |fs|
    ensures before + Subscribed(registry, client, fs[..i + 1])
         == before + Subscribed(registry, client, fs[..i])
            + if client in registry then SubscribeOp(fs[i], client, registry[client]) else []
    ensures SubackCodes(fs[..i + 1]) == SubackCodes(fs[..i]) + [if fs[i].qos < 3 then fs[i].qos else 0x80]
  {
    assert fs[..i + 1][..i] == fs[..i];
  }

  /** What the step does to the topic tree's history: a routed packet is matched, and routed to what was
      found; a SUBSCRIBE adds its filters; nothing else touches the tree. */
  ghost predicate TreeDid<S>(b: Broker<S>, step: Step<S>, before: seq<Op<Match<S>>>, after: seq<Op<Match<S>>>,
                             entries: seq<Entry<Match<S>>>)
  {
    match step
    case DoPublish(_, _, p, ms, _) =>
      if p.body.Publish? && p.header.qos < 2 then Matched(before, after, p.body.topic, entries, ms) else after == before
    case DoPubrel(_, client, id, ms, _) =>
      if Known(b, client) then Rerouted(b.sessions[b.registry[client]], id, before, after, entries, ms) else after == before
    case DoSubscribe(_, client, _, fs, _) => after == before + Subscribed(b.registry, client, fs)
    case DoRetransmit(e, _, ms, _) => PassSearched(b, e.item, before, after, entries, ms)
    case _ => after == before
  }
}
