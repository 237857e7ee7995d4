/** What happens to one session's inflight maps over any run of packets, and which packets PUBREL routes.

    A history is the list of events that hit the session, oldest first.
 */
module InflightHistory {
  import opened Packets

  datatype Event =
    | GotPublish(packet: Packet) // a QoS 2 PUBLISH arrived
    // Routing sent the session a PUBLISH with QoS above 0, and pushed a retransmission entry for it
    // with the id just allocated.
    | Delivered(packet: Packet, retryId: uint16, due: int)
    | GotPuback(id: uint16)
    | GotPubrec(id: uint16)
    | GotPubrel(id: uint16)
    | GotPubcomp(id: uint16)
    | Resumed                    // the client reconnected without a clean session

  /** `inflight` and `inflight_ack` of a session, and the packets that its PUBRELs have routed. */
  datatype Flow = Flow(inflight: map<uint16, Packet>, acks: map<uint16, Packet>, routed: seq<Packet>)

  const NO_FLOW: Flow := Flow(map[], map[], [])

  predicate IsPublish(p: Packet)
  {
    p.header.ptype == PUBLISH && p.body.Publish? && p.pktLen > 0
  }

  function IdOf(p: Packet): uint16
  {
    if p.body.Publish? then p.body.packetId else 0
  }

  /** The PUBREL that `build_ack` returns for storing. */
  function PubrelFor(id: uint16): Packet
  {
    Packet(Header(PUBREL, false, 0, false), 4, Ack(id))
  }

  /** `unordered_map::insert`: an id that is there already keeps its packet. */
  function InsertIfAbsent(m: map<uint16, Packet>, id: uint16, p: Packet): map<uint16, Packet>
  {
    if id in m then m else m[id := p]
  }

  function After(f: Flow, e: Event): Flow
  {
    match e
    case GotPublish(p) => f.(inflight := InsertIfAbsent(f.inflight, IdOf(p), p))
    case Delivered(p, _, _) => f.(inflight := InsertIfAbsent(f.inflight, IdOf(p), p))
    case GotPuback(n) => f.(inflight := f.inflight - {n})
    case GotPubrec(n) => f.(acks := InsertIfAbsent(f.acks, n, PubrelFor(n)))
    case GotPubrel(n) =>
      f.(inflight := f.inflight - {n},
         routed := if n in f.inflight then f.routed + [f.inflight[n]] else f.routed)
    case GotPubcomp(n) => f.(acks := f.acks - {n})
    case Resumed => f
  }

  function Replay(h: seq<Event>): Flow
  {
    if h == [] then NO_FLOW else After(Replay(h[..|h| - 1]), h[|h| - 1])
  }

  lemma ReplayNext(h: seq<Event>, i: nat)
    requires i < |h|
    ensures Replay(h[..i + 1]) == After(Replay(h[..i]), h[i])
  {
    assert h[..i + 1][..i] == h[..i];
  }

  // ---------------------------------------------------------------- who holds a packet id

  predicate Stores(e: Event, n: uint16)
  {
    (e.GotPublish? || e.Delivered?) && IdOf(e.packet) == n
  }

  predicate Removes(e: Event, n: uint16)
  {
    e == GotPubrel(n) || e == GotPuback(n)
  }

  ghost predicate RemovedBetween(h: seq<Event>, n: uint16, i: nat, j: nat)
    requires j <= |h|
  {
    exists k | i < k < j :: Removes(h[k], n)
  }

  /** Event `j` is the first to store id `n` since the latest removal of `n`. */
  ghost predicate Holder(h: seq<Event>, n: uint16, j: nat)
  {
    && j < |h| && Stores(h[j], n)
    && !RemovedBetween(h, n, j, |h|)
    && forall i: nat | i < j && Stores(h[i], n) :: RemovedBetween(h, n, i, j)
  }

  ghost predicate NoHolder(h: seq<Event>, n: uint16)
  {
    forall j: nat :: !Holder(h, n, j)
  }

  lemma HolderInPrefix(h: seq<Event>, n: uint16, j: nat)
    requires h != []
    ensures j < |h| - 1 ==>
              (Holder(h, n, j) <==> Holder(h[..|h| - 1], n, j) && !Removes(h[|h| - 1], n))
  {
    if j < |h| - 1 {
      var init := h[..|h| - 1];
      assert forall i: nat | i < j :: RemovedBetween(h, n, i, j) <==> RemovedBetween(init, n, i, j);
      assert RemovedBetween(h, n, j, |h|) <==> RemovedBetween(init, n, j, |init|) || Removes(h[|h| - 1], n) by {
        if Removes(h[|h| - 1], n) { assert RemovedBetween(h, n, j, |h|); }
      }
    }
  }

  lemma HolderIsUnique(h: seq<Event>, n: uint16, i: nat, j: nat)
    requires Holder(h, n, i) && Holder(h, n, j)
    ensures i == j
  {
  }

  /** An id is in `inflight` exactly when some event holds it, and the packet is that event's. */
  lemma {:induction false} HeldIffHolder(h: seq<Event>, n: uint16)
    ensures n in Replay(h).inflight <==> exists j: nat :: Holder(h, n, j)
    ensures forall j: nat | Holder(h, n, j) ::
              n in Replay(h).inflight && Replay(h).inflight[n] == h[j].packet
    decreases |h|
  {
    if h != [] {
      var last := |h| - 1;
      var init, e := h[..last], h[last];
      HeldIffHolder(init, n);
      forall j: nat ensures j < last ==> (Holder(h, n, j) <==> Holder(init, n, j) && !Removes(e, n)) {
        HolderInPrefix(h, n, j);
      }
      if n in Replay(init).inflight {
        var j: nat :| Holder(init, n, j);
        if !Removes(e, n) {
          assert Holder(h, n, j);
          assert !Holder(h, n, last) by { assert !RemovedBetween(h, n, j, last); }
        }
      } else if Stores(e, n) {
        UnheldStoreHolds(h, n);
      }
    }
  }

  lemma UnheldStoreHolds(h: seq<Event>, n: uint16)
    requires h != [] && Stores(h[|h| - 1], n)
    requires NoHolder(h[..|h| - 1], n)
    ensures Holder(h, n, |h| - 1)
  {
    var last := |h| - 1;
    forall i: nat | i < last && Stores(h[i], n) ensures RemovedBetween(h, n, i, last) {
      FirstStoreOrRemoved(h[..last], n, i);
      assert RemovedBetween(h[..last], n, i, last) ==> RemovedBetween(h, n, i, last);
    }
  }

  /** With no holder, every store has been removed since. */
  lemma {:induction false} FirstStoreOrRemoved(h: seq<Event>, n: uint16, i: nat)
    requires i < |h| && Stores(h[i], n)
    requires NoHolder(h, n)
    ensures RemovedBetween(h, n, i, |h|)
    decreases i
  {
    if !RemovedBetween(h, n, i, |h|) {
      assert !Holder(h, n, i);
      var k: nat :| k < i && Stores(h[k], n) && !RemovedBetween(h, n, k, i);
      FirstStoreOrRemoved(h, n, k);
    }
  }

  // ---------------------------------------------------------------- exactly once

  /** Event `j` put its packet into `inflight` (its id was free). */
  ghost predicate Accepted(h: seq<Event>, j: nat)
  {
    j < |h| && (h[j].GotPublish? || h[j].Delivered?) && IdOf(h[j].packet) !in Replay(h[..j]).inflight
  }

  /** Event `i` is a PUBREL that routes what event `j` stored. */
  ghost predicate Releases(h: seq<Event>, i: nat, j: nat)
  {
    && j < i < |h| && h[i].GotPubrel? && Accepted(h, j) && IdOf(h[j].packet) == h[i].id
    && !RemovedBetween(h, h[i].id, j, i)
  }

  lemma AcceptedHolds(h: seq<Event>, i: nat, n: uint16, j: nat)
    requires i <= |h|
    ensures Holder(h[..i], n, j)
       <==> j < i && Accepted(h, j) && IdOf(h[j].packet) == n && !RemovedBetween(h, n, j, i)
  {
    if j < i && Stores(h[j], n) {
      assert RemovedBetween(h[..i], n, j, i) <==> RemovedBetween(h, n, j, i);
      HeldIffHolder(h[..j], n);
      if Holder(h[..i], n, j) && n in Replay(h[..j]).inflight {
        var m: nat :| Holder(h[..j], n, m);
        assert RemovedBetween(h[..i], n, m, j);
        assert RemovedBetween(h[..j], n, m, j);
        assert false;
      }
      if n !in Replay(h[..j]).inflight && !RemovedBetween(h, n, j, i) {
        forall k: nat | k < j && Stores(h[k], n) ensures RemovedBetween(h[..i], n, k, j) {
          FirstStoreOrRemoved(h[..j], n, k);
          assert RemovedBetween(h[..j], n, k, j);
        }
      }
    }
  }

  /** What one PUBREL routes: the packet of the one acceptance it releases, or nothing. */
  lemma PubrelRoutes(h: seq<Event>, i: nat)
    requires i < |h| && h[i].GotPubrel?
    ensures forall j: nat | Releases(h, i, j) ::
              Replay(h[..i + 1]).routed == Replay(h[..i]).routed + [h[j].packet]
    ensures (forall j: nat :: !Releases(h, i, j)) ==> Replay(h[..i + 1]).routed == Replay(h[..i]).routed
  {
    var n := h[i].id;
    ReplayNext(h, i);
    HeldIffHolder(h[..i], n);
    forall j: nat ensures Holder(h[..i], n, j) <==> Releases(h, i, j) {
      AcceptedHolds(h, i, n, j);
    }
  }

  /** Released exactly once, for every history: the packet accepted at `j` stays held, and its repeats
      are refused, until the next PUBREL or PUBACK of its id. If that is a PUBREL it releases the packet;
      no other PUBREL ever does, and that PUBREL releases nothing else. (A retransmission pass may route
      a held packet without releasing it; which passes do is a matter of whole runs.) */
  lemma ExactlyOnce(h: seq<Event>, j: nat, r: nat)
    requires Accepted(h, j) && j < r < |h|
    requires Removes(h[r], IdOf(h[j].packet)) && !RemovedBetween(h, IdOf(h[j].packet), j, r)
    ensures forall i: nat | j < i <= r ::
              var f := Replay(h[..i]).inflight; var n := IdOf(h[j].packet);
              n in f && f[n] == h[j].packet && (i < r && Stores(h[i], n) ==> !Accepted(h, i))
    ensures h[r].GotPubrel? <==> Releases(h, r, j)
    ensures forall i: nat | Releases(h, i, j) :: i == r
    ensures forall k: nat | Releases(h, r, k) :: k == j
  {
    var n := IdOf(h[j].packet);
    forall i: nat | j < i <= r
      ensures n in Replay(h[..i]).inflight && Replay(h[..i]).inflight[n] == h[j].packet
      ensures Stores(h[i], n) ==> !Accepted(h, i)
    {
      AcceptedHolds(h, i, n, j);
      HeldIffHolder(h[..i], n);
    }
    forall k: nat | Releases(h, r, k) ensures k == j {
      AcceptedHolds(h, r, n, k);
      AcceptedHolds(h, r, n, j);
      HolderIsUnique(h[..r], n, k, j);
    }
  }

  /** Until its id is removed an accepted packet stays held to the end of the history. */
  lemma UnreleasedIsHeld(h: seq<Event>, j: nat)
    requires Accepted(h, j) && !RemovedBetween(h, IdOf(h[j].packet), j, |h|)
    ensures var f := Replay(h).inflight; var n := IdOf(h[j].packet); n in f && f[n] == h[j].packet
  {
    assert h[..|h|] == h;
    AcceptedHolds(h, |h|, IdOf(h[j].packet), j);
    HeldIffHolder(h, IdOf(h[j].packet));
  }

  function AcceptedCount(h: seq<Event>): nat
  {
    if h == [] then 0
    else
      var init, e := h[..|h| - 1], h[|h| - 1];
      AcceptedCount(init)
      + if (e.GotPublish? || e.Delivered?) && IdOf(e.packet) !in Replay(init).inflight then 1 else 0
  }

  function AckedCount(h: seq<Event>): nat
  {
    if h == [] then 0
    else
      var init, e := h[..|h| - 1], h[|h| - 1];
      AckedCount(init) + if e.GotPuback? && e.id in Replay(init).inflight then 1 else 0
  }

  /** Conservation: every acceptance is routed, removed by a PUBACK, or still held. */
  lemma {:induction false} AcceptancesAreConserved(h: seq<Event>)
    ensures AcceptedCount(h) == |Replay(h).routed| + AckedCount(h) + |Replay(h).inflight|
    decreases |h|
  {
    if h != [] {
      var init, e := h[..|h| - 1], h[|h| - 1];
      AcceptancesAreConserved(init);
      if e.GotPuback? || e.GotPubrel? {
        RemovalSize(Replay(init).inflight, e.id);
      }
    }
  }

  lemma RemovalSize(m: map<uint16, Packet>, n: uint16)
    ensures |m - {n}| == |m| - if n in m then 1 else 0
  {
    assert (m - {n}).Keys == m.Keys - {n};
    assert |(m - {n}).Keys| == |m - {n}| && |m.Keys| == |m|;
  }

  // ---------------------------------------------------------------- sessions that receive deliveries too

  /** A QoS 2 PUBLISH is accepted exactly when no event holds its id. For a session that was never
      delivered a packet the holder can only be an earlier copy of the same flow; a delivery that
      carries the same id blocks the client's own packet. */
  lemma PublishIsAcceptedIff(h: seq<Event>, i: nat)
    requires i < |h| && h[i].GotPublish?
    ensures Accepted(h, i) <==> NoHolder(h[..i], IdOf(h[i].packet))
    ensures !Accepted(h, i) ==>
              exists j: nat | j < i :: Stores(h[j], IdOf(h[i].packet)) && !RemovedBetween(h, IdOf(h[i].packet), j, i)
                                       && ((forall k | 0 <= k < i :: !h[k].Delivered?) ==> h[j].GotPublish?)
  {
    var n := IdOf(h[i].packet);
    HeldIffHolder(h[..i], n);
    if !Accepted(h, i) {
      var j: nat :| Holder(h[..i], n, j);
      AcceptedHolds(h, i, n, j);
    }
  }

  // ---------------------------------------------------------------- the acknowledgement map

  /** Event `i` is the latest PUBREC or PUBCOMP for the id, and it is a PUBREC. */
  ghost predicate LatestIsPubrec(h: seq<Event>, n: uint16, i: nat)
  {
    i < |h| && h[i] == GotPubrec(n) && forall k | i < k < |h| :: h[k] != GotPubrec(n) && h[k] != GotPubcomp(n)
  }

  /** An id is in `inflight_ack` exactly when the latest PUBREC or PUBCOMP for it was a PUBREC. */
  lemma {:induction false} AckedIffLatestIsPubrec(h: seq<Event>, n: uint16)
    ensures n in Replay(h).acks <==> exists i: nat :: LatestIsPubrec(h, n, i)
    decreases |h|
  {
    if h != [] {
      var last := |h| - 1;
      var init, e := h[..last], h[last];
      AckedIffLatestIsPubrec(init, n);
      if e == GotPubrec(n) {
        assert LatestIsPubrec(h, n, last);
      } else if n in Replay(init).acks {
        var i: nat :| LatestIsPubrec(init, n, i);
        assert e != GotPubcomp(n) ==> LatestIsPubrec(h, n, i);
      } else if exists i: nat :: LatestIsPubrec(h, n, i) {
        var i: nat :| LatestIsPubrec(h, n, i);
        assert LatestIsPubrec(init, n, i);
      }
    }
  }

  // ---------------------------------------------------------------- what is stored

  predicate CarriesPublishes(h: seq<Event>)
  {
    forall i | 0 <= i < |h| && (h[i].GotPublish? || h[i].Delivered?) :: IsPublish(h[i].packet)
  }

  /** Every stored packet is a PUBLISH with its own id and a nonzero length, or a four-byte PUBREL
      with its own id; so a returned length of zero means exactly "absent". */
  lemma {:induction false} StoredPackets(h: seq<Event>)
    requires CarriesPublishes(h)
    ensures forall n | n in Replay(h).inflight ::
              IsPublish(Replay(h).inflight[n]) && IdOf(Replay(h).inflight[n]) == n
    ensures forall n | n in Replay(h).acks :: Replay(h).acks[n] == PubrelFor(n)
    ensures forall i | 0 <= i < |Replay(h).routed| :: IsPublish(Replay(h).routed[i])
    decreases |h|
  {
    if h != [] {
      StoredPackets(h[..|h| - 1]);
    }
  }
}
