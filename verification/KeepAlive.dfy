/** The keep-alive contract (section 3.1.2.10 of MQTT 3.1.1) and the lazy expiry heap behind it. */
module KeepAlive {
  import opened Wrappers
  import opened BrokerModel
  import opened BrokerInvariants

  // ---------------------------------------------------------------- steps that only take away

  /** Sessions may have been disconnected, dropped from the registry or have lost their transport. */
  ghost predicate Fading<S>(b: Broker<S>, c: Broker<S>)
  {
    && c.transports <= b.transports && c.nextTransport == b.nextTransport
    && c.expiry == b.expiry && c.clock == b.clock && c.sessions.Keys == b.sessions.Keys
    && c.retransmit == b.retransmit && c.held == b.held
    && (forall k | k in c.registry :: k in b.registry && c.registry[k] == b.registry[k])
    && (forall s | s in b.sessions ::
          c.sessions[s] == b.sessions[s] || c.sessions[s] == b.sessions[s].(connected := false))
  }

  /** Whoever has been disconnected has no live transport. */
  ghost predicate CutOff<S>(b: Broker<S>, c: Broker<S>)
  {
    forall s | s in b.sessions && s in c.sessions && b.sessions[s].connected && !c.sessions[s].connected :: !Online(c, s)
  }

  lemma FadingTwice<S>(a: Broker<S>, b: Broker<S>, c: Broker<S>)
    requires Fading(a, b) && Fading(b, c)
    ensures Fading(a, c)
    ensures CutOff(a, b) && CutOff(b, c) ==> CutOff(a, c)
  {
  }

  lemma FadingKeepsWatch<S>(b: Broker<S>, c: Broker<S>)
    requires Fading(b, c) && AllWatched(b)
    ensures AllWatched(c)
  {
    forall s | s in c.sessions && Monitored(c, s) ensures Watched(c, s) {
      assert Monitored(b, s);
      var e :| e in b.expiry && e.item == s && e.key <= b.sessions[s].Deadline();
      assert e in c.expiry;
    }
  }

  lemma FadingKeepsOffline<S>(b: Broker<S>, c: Broker<S>)
    requires Fading(b, c) && CutOff(b, c) && OfflineOk(b)
    ensures OfflineOk(c)
  {
    forall s | s in c.sessions && Live(c, s) && !c.sessions[s].connected ensures !Online(c, s) {
      assert Live(b, s);
    }
  }

  lemma FadingKeeps<S>(b: Broker<S>, c: Broker<S>)
    requires KeepAliveInv(b) && Fading(b, c) && CutOff(b, c)
    ensures KeepAliveInv(c)
  {
    FadingKeepsWatch(b, c);
    FadingKeepsOffline(b, c);
  }

  lemma DisconnectFades<S>(b: Broker<S>, s: S)
    requires s in b.sessions
    ensures Fading(b, Disconnect(b, s)) && CutOff(b, Disconnect(b, s)) && !Online(Disconnect(b, s), s)
  {
  }

  lemma {:induction false} DisconnectAllFades<S>(b: Broker<S>, ss: seq<S>)
    requires forall s | s in ss :: s in b.sessions
    ensures Fading(b, DisconnectAll(b, ss)) && CutOff(b, DisconnectAll(b, ss))
    ensures forall s | s in ss :: !Online(DisconnectAll(b, ss), s)
    decreases |ss|
  {
    if ss != [] {
      var init, last := ss[..|ss| - 1], ss[|ss| - 1];
      DisconnectAllFades(b, init);
      var c := DisconnectAll(b, init);
      DisconnectFades(c, last);
      FadingTwice(b, c, Disconnect(c, last));
      StaysOffline(c, Disconnect(c, last));
      assert ss == init + [last];
    }
  }

  lemma StaysOffline<S>(b: Broker<S>, c: Broker<S>)
    requires Fading(b, c)
    ensures forall s | s in b.sessions && !Online(b, s) :: !Online(c, s)
  {
  }

  lemma DisconnectSpares<S>(b: Broker<S>, x: S, s: S)
    requires x in b.sessions && s in b.sessions && s != x
    requires b.sessions[x].clientId in b.registry ==> b.registry[b.sessions[x].clientId] != s
    ensures Disconnect(b, x).sessions[s] == b.sessions[s]
    ensures Live(b, s) ==> Live(Disconnect(b, x), s)
  {
  }

  /** A session that is not in the list keeps its data and, if it was registered, its registration. */
  lemma {:induction false} DisconnectAllSpares<S>(b: Broker<S>, ss: seq<S>, s: S)
    requires forall x | x in ss :: x in b.sessions && Live(b, x)
    requires s in b.sessions && s !in ss
    ensures DisconnectAll(b, ss).sessions[s] == b.sessions[s]
    ensures Live(b, s) ==> Live(DisconnectAll(b, ss), s)
    decreases |ss|
  {
    if ss != [] {
      var init, last := ss[..|ss| - 1], ss[|ss| - 1];
      assert ss == init + [last];
      DisconnectAllSpares(b, init, s);
      DisconnectAllFades(b, init);
      assert Live(b, last);
      DisconnectSpares(DisconnectAll(b, init), last, s);
    }
  }

  /** Only transports of listed sessions are closed. */
  lemma {:induction false} DisconnectAllCloses<S>(b: Broker<S>, ss: seq<S>, t: nat)
    requires forall x | x in ss :: x in b.sessions
    requires t in b.transports && t !in DisconnectAll(b, ss).transports
    ensures exists x :: x in ss && b.sessions[x].transport == Some(t)
    decreases |ss|
  {
    if ss != [] {
      var init, last := ss[..|ss| - 1], ss[|ss| - 1];
      assert ss == init + [last];
      DisconnectAllFades(b, init);
      if t !in DisconnectAll(b, init).transports {
        DisconnectAllCloses(b, init, t);
      } else {
        assert last in ss;
      }
    }
  }

  // ---------------------------------------------------------------- putting entries back

  /** Everything but the expiry heap and the recorded expiry times is the same. */
  ghost predicate Rescheduled<S>(b: Broker<S>, c: Broker<S>)
  {
    && c.registry == b.registry && c.transports == b.transports && c.nextTransport == b.nextTransport
    && c.clock == b.clock && c.held == b.held && c.sessions.Keys == b.sessions.Keys && c.retransmit == b.retransmit
    && forall s | s in b.sessions :: c.sessions[s] == b.sessions[s].(expiryMs := c.sessions[s].expiryMs)
  }

  ghost predicate NoEntry<S>(b: Broker<S>, s: S)
  {
    forall e | e in b.expiry :: e.item != s
  }

  lemma ScheduleMoves<S>(b: Broker<S>, s: S)
    requires s in b.sessions
    ensures Rescheduled(b, ScheduleExpiry(b, s))
    ensures ScheduleExpiry(b, s).expiry
         == if b.sessions[s].keepAlive > 0 then b.expiry + multiset{Timed(b.sessions[s].Deadline(), s)} else b.expiry
  {
  }

  lemma AddedEntry<T>(m: multiset<T>, e: T)
    ensures forall x :: x in m + multiset{e} <==> x in m || x == e
    ensures forall x | x != e :: (m + multiset{e})[x] == m[x]
    ensures (m + multiset{e})[e] == m[e] + 1
  {
  }

  lemma ScheduleOne<S>(b: Broker<S>, s: S)
    requires s in b.sessions && ActivityOk(b) && ExpiryOk(b) && NoEntry(b, s)
    ensures ExpiryOk(ScheduleExpiry(b, s))
  {
    ScheduleMoves(b, s);
    AddedEntry(b.expiry, Timed(b.sessions[s].Deadline(), s));
  }

  ghost predicate AllDistinct<S>(ss: seq<S>)
  {
    forall i, j | 0 <= i < j < |ss| :: ss[i] != ss[j]
  }

  lemma RescheduledTwice<S>(a: Broker<S>, b: Broker<S>, c: Broker<S>)
    requires Rescheduled(a, b) && Rescheduled(b, c)
    ensures Rescheduled(a, c)
  {
  }

  lemma {:induction false} ScheduleAllMoves<S>(b: Broker<S>, ss: seq<S>)
    requires forall s | s in ss :: s in b.sessions
    ensures Rescheduled(b, ScheduleAll(b, ss))
    decreases |ss|
  {
    if ss != [] {
      var init, last := ss[..|ss| - 1], ss[|ss| - 1];
      ScheduleAllMoves(b, init);
      var c := ScheduleAll(b, init);
      ScheduleMoves(c, last);
      RescheduledTwice(b, c, ScheduleExpiry(c, last));
    }
  }

  /** The old entries stay, and each listed session with a nonzero keep-alive gets one at its deadline. */
  lemma {:induction false} ScheduleAllEntries<S>(b: Broker<S>, ss: seq<S>)
    requires forall s | s in ss :: s in b.sessions
    ensures forall e | e in b.expiry :: e in ScheduleAll(b, ss).expiry
    ensures forall e | e in ScheduleAll(b, ss).expiry && e !in b.expiry :: e.item in ss
    ensures forall s | s in ss && b.sessions[s].keepAlive > 0 ::
              Timed(b.sessions[s].Deadline(), s) in ScheduleAll(b, ss).expiry
    decreases |ss|
  {
    if ss != [] {
      var init, last := ss[..|ss| - 1], ss[|ss| - 1];
      assert ss == init + [last];
      ScheduleAllEntries(b, init);
      ScheduleAllMoves(b, init);
      var c := ScheduleAll(b, init);
      assert c.sessions[last].Deadline() == b.sessions[last].Deadline();
      ScheduleMoves(c, last);
      AddedEntry(c.expiry, Timed(c.sessions[last].Deadline(), last));
    }
  }

  lemma {:induction false} ScheduleMany<S>(b: Broker<S>, ss: seq<S>)
    requires AllDistinct(ss) && forall s | s in ss :: s in b.sessions && NoEntry(b, s)
    requires ActivityOk(b) && ExpiryOk(b)
    ensures ExpiryOk(ScheduleAll(b, ss))
    decreases |ss|
  {
    if ss != [] {
      var init, last := ss[..|ss| - 1], ss[|ss| - 1];
      assert ss == init + [last];
      ScheduleMany(b, init);
      ScheduleAllMoves(b, init);
      ScheduleAllEntries(b, init);
      assert last !in init;
      ScheduleOne(ScheduleAll(b, init), last);
    }
  }

  // ---------------------------------------------------------------- one expiry pass

  lemma {:induction false} OverdueAre<S>(b: Broker<S>, order: seq<Timed<S>>, now: int)
    requires forall e | e in order :: e.item in b.sessions
    ensures forall s :: s in Overdue(b, order, now)
                   <==> exists e :: e in order && e.item == s && b.sessions[s].Deadline() <= now && b.sessions[s].connected
    decreases |order|
  {
    if order != [] {
      var n := |order| - 1;
      OverdueAre(b, order[..n], now);
      assert order == order[..n] + [order[n]];
    }
  }

  lemma {:induction false} StaleAre<S>(b: Broker<S>, order: seq<Timed<S>>, now: int)
    requires forall e | e in order :: e.item in b.sessions
    requires forall i, j | 0 <= i < j < |order| :: order[i].item != order[j].item
    ensures AllDistinct(Stale(b, order, now))
    ensures forall s :: s in Stale(b, order, now)
                   <==> exists e :: e in order && e.item == s && b.sessions[s].Deadline() > now
    decreases |order|
  {
    if order != [] {
      var n := |order| - 1;
      StaleAre(b, order[..n], now);
      assert order == order[..n] + [order[n]];
      assert forall i | 0 <= i < n :: order[i].item != order[n].item;
    }
  }

  /** The drained entries belong to different sessions, and none of those has another entry. */
  lemma DrainedOnce<S>(b: Broker<S>, order: seq<Timed<S>>, now: int)
    requires ExpiryOk(b) && DrainOrder(b, order, now)
    ensures forall i, j | 0 <= i < j < |order| :: order[i].item != order[j].item
    ensures forall e | e in order :: e in b.expiry && e !in b.expiry - multiset(order)
    ensures forall e | e in b.expiry && e.key <= now :: e in order
    ensures forall e, f | e in order && f in b.expiry - multiset(order) :: e.item != f.item
  {
    var m := multiset(order);
    forall e | e in order ensures e in b.expiry && m[e] == 1 {
      assert e in m;
    }
    forall i, j | 0 <= i < j < |order| ensures order[i].item != order[j].item {
      assert order[i] in order && order[j] in order;
      if order[i] == order[j] { TwiceCounts(order, i, j); }
    }
  }

  lemma TwiceCounts<T>(s: seq<T>, i: nat, j: nat)
    requires i < j < |s| && s[i] == s[j]
    ensures multiset(s)[s[i]] >= 2
  {
    assert s == s[..i] + [s[i]] + s[i + 1..j] + [s[j]] + s[j + 1..];
  }

  // ---------------------------------------------------------------- the theorems about a pass

  /** What a pass does, step by step: `b1` after the disconnections, `c` after the rescheduling. */
  lemma ExpirePhases<S>(b: Broker<S>, order: seq<Timed<S>>, now: int)
    requires ExpiryOk(b) && DrainOrder(b, order, now) && b.clock <= now
    requires forall e | e in order :: e.item in b.sessions
    ensures var popped := b.(clock := now, expiry := b.expiry - multiset(order));
            var b1 := DisconnectAll(popped, Overdue(b, order, now));
            && Fading(popped, b1) && CutOff(popped, b1) && Rescheduled(b1, Expire(b, order, now))
            && (forall s | s in Overdue(b, order, now) :: !Online(b1, s))
  {
    var popped := b.(clock := now, expiry := b.expiry - multiset(order));
    DisconnectAllFades(popped, Overdue(b, order, now));
    ScheduleAllMoves(DisconnectAll(popped, Overdue(b, order, now)), Stale(b, order, now));
  }

  /** Keep-alive is enforced: after a pass at time `now`, every registered, connected session with a
      live transport and a nonzero keep-alive has been heard of within 1.5 times its keep-alive. */
  lemma KeepAliveEnforced<S>(b: Broker<S>, order: seq<Timed<S>>, now: int, s: S)
    requires KeepAliveInv(b) && b.clock <= now && DrainOrder(b, order, now)
    requires forall e | e in order :: Live(b, e.item)
    requires s in b.sessions && Monitored(Expire(b, order, now), s)
    ensures Expire(b, order, now).sessions[s].Deadline() > now
    ensures Monitored(b, s) && Expire(b, order, now).sessions[s].Deadline() == b.sessions[s].Deadline()
  {
    ExpirePhases(b, order, now);
    DrainedOnce(b, order, now);
    OverdueAre(b, order, now);
    assert Monitored(b, s);
    var e :| e in b.expiry && e.item == s && e.key <= b.sessions[s].Deadline();
    assert e.key <= now ==> e in order;
  }

  /** Keep-alive spares the living: a registered session whose deadline is still ahead keeps its
      registration and all its data but the recorded expiry time; it keeps a live transport exactly
      when no session disconnected by this pass was using the same one. */
  lemma KeepAliveSpares<S>(b: Broker<S>, order: seq<Timed<S>>, now: int, s: S)
    requires KeepAliveInv(b) && b.clock <= now && DrainOrder(b, order, now)
    requires forall e | e in order :: Live(b, e.item)
    requires s in b.sessions && Live(b, s) && b.sessions[s].Deadline() > now
    ensures Live(Expire(b, order, now), s)
    ensures var c := Expire(b, order, now); c.sessions[s] == b.sessions[s].(expiryMs := c.sessions[s].expiryMs)
    ensures Online(Expire(b, order, now), s)
       <==> Online(b, s) && forall x | x in Overdue(b, order, now) :: b.sessions[x].transport != b.sessions[s].transport
  {
    ExpirePhases(b, order, now);
    OverdueAre(b, order, now);
    var popped := b.(clock := now, expiry := b.expiry - multiset(order));
    var gone := Overdue(b, order, now);
    forall x | x in gone ensures Live(popped, x) { assert Live(b, x); }
    DisconnectAllSpares(popped, gone, s);
    if Online(b, s) && !Online(Expire(b, order, now), s) {
      DisconnectAllCloses(popped, gone, b.sessions[s].transport.value);
    }
  }

  lemma StaleHaveNoEntry<S>(b: Broker<S>, order: seq<Timed<S>>, now: int)
    requires ExpiryOk(b) && DrainOrder(b, order, now)
    requires forall e | e in order :: e.item in b.sessions
    ensures AllDistinct(Stale(b, order, now))
    ensures forall s, e | s in Stale(b, order, now) && e in b.expiry - multiset(order) :: e.item != s
  {
    DrainedOnce(b, order, now);
    StaleAre(b, order, now);
  }

  lemma ExpireKeepsEntries<S>(b: Broker<S>, order: seq<Timed<S>>, now: int)
    requires ExpiryOk(b) && ActivityOk(b) && b.clock <= now && DrainOrder(b, order, now)
    requires forall e | e in order :: e.item in b.sessions
    ensures ExpiryOk(Expire(b, order, now))
  {
    StaleHaveNoEntry(b, order, now);
    var popped := b.(clock := now, expiry := b.expiry - multiset(order));
    DisconnectAllFades(popped, Overdue(b, order, now));
    var b1 := DisconnectAll(popped, Overdue(b, order, now));
    DrainedOnce(b, order, now);
    ScheduleMany(b1, Stale(b, order, now));
  }

  /** Entries that were not due stay. */
  lemma UndueEntriesStay<S>(b: Broker<S>, order: seq<Timed<S>>, now: int)
    requires DrainOrder(b, order, now) && forall e | e in order :: e.item in b.sessions
    ensures forall e | e in b.expiry && e.key > now :: e in Expire(b, order, now).expiry
  {
    var popped := b.(clock := now, expiry := b.expiry - multiset(order));
    DisconnectAllFades(popped, Overdue(b, order, now));
    ScheduleAllEntries(DisconnectAll(popped, Overdue(b, order, now)), Stale(b, order, now));
    forall e | e in b.expiry && e.key > now ensures e in popped.expiry {
      assert e !in order;
    }
  }

  /** A stale session with a nonzero keep-alive is back, at its true deadline. */
  lemma StaleEntriesReturn<S>(b: Broker<S>, order: seq<Timed<S>>, now: int, e: Timed<S>)
    requires ExpiryOk(b) && DrainOrder(b, order, now) && forall e | e in order :: e.item in b.sessions
    requires e in order && b.sessions[e.item].Deadline() > now && b.sessions[e.item].keepAlive > 0
    ensures Timed(b.sessions[e.item].Deadline(), e.item) in Expire(b, order, now).expiry
  {
    IsStale(b, order, now, e);
    var popped := b.(clock := now, expiry := b.expiry - multiset(order));
    var b1 := DisconnectAll(popped, Overdue(b, order, now));
    assert b1.sessions[e.item].Deadline() == b.sessions[e.item].Deadline()
           && b1.sessions[e.item].keepAlive == b.sessions[e.item].keepAlive by {
      DisconnectAllFades(popped, Overdue(b, order, now));
    }
    ScheduleAllEntries(b1, Stale(b, order, now));
  }

  lemma IsStale<S>(b: Broker<S>, order: seq<Timed<S>>, now: int, e: Timed<S>)
    requires ExpiryOk(b) && DrainOrder(b, order, now) && forall e | e in order :: e.item in b.sessions
    requires e in order && b.sessions[e.item].Deadline() > now
    ensures e.item in Stale(b, order, now)
  {
    DrainedOnce(b, order, now);
    StaleAre(b, order, now);
  }

  lemma ExpireKeepsWatch<S>(b: Broker<S>, order: seq<Timed<S>>, now: int)
    requires KeepAliveInv(b) && b.clock <= now && DrainOrder(b, order, now)
    requires forall e | e in order :: Live(b, e.item)
    ensures AllWatched(Expire(b, order, now))
  {
    var c := Expire(b, order, now);
    UndueEntriesStay(b, order, now);
    DrainedOnce(b, order, now);
    ExpirePhases(b, order, now);
    forall s | s in c.sessions && Monitored(c, s) ensures Watched(c, s) {
      KeepAliveEnforced(b, order, now, s);
      var e :| e in b.expiry && e.item == s && e.key <= b.sessions[s].Deadline();
      if e.key > now {
        assert e in c.expiry;
      } else {
        StaleEntriesReturn(b, order, now, e);
      }
    }
  }

  lemma ExpireKeepsStanding<S>(b: Broker<S>, order: seq<Timed<S>>, now: int)
    requires ExpiryOk(b) && RegistryOk(b) && TransportsOk(b) && ActivityOk(b) && OfflineOk(b)
    requires b.clock <= now && DrainOrder(b, order, now)
    requires forall e | e in order :: e.item in b.sessions
    ensures var c := Expire(b, order, now); RegistryOk(c) && TransportsOk(c) && ActivityOk(c) && OfflineOk(c)
  {
    ExpirePhases(b, order, now);
    var popped := b.(clock := now, expiry := b.expiry - multiset(order));
    var b1 := DisconnectAll(popped, Overdue(b, order, now));
    FadingKeepsOffline(popped, b1);
    FadingKeepsStanding(popped, b1);
    RescheduledKeeps(b1, Expire(b, order, now));
  }

  lemma FadingKeepsStanding<S>(b: Broker<S>, c: Broker<S>)
    requires Fading(b, c) && RegistryOk(b) && TransportsOk(b) && ActivityOk(b)
    ensures RegistryOk(c) && TransportsOk(c) && ActivityOk(c)
  {
  }

  lemma RescheduledKeeps<S>(b: Broker<S>, c: Broker<S>)
    requires Rescheduled(b, c) && RegistryOk(b) && TransportsOk(b) && ActivityOk(b) && OfflineOk(b)
    ensures RegistryOk(c) && TransportsOk(c) && ActivityOk(c) && OfflineOk(c)
  {
  }

  lemma ExpireKeeps<S>(b: Broker<S>, order: seq<Timed<S>>, now: int)
    requires KeepAliveInv(b) && b.clock <= now && DrainOrder(b, order, now)
    requires forall e | e in order :: Live(b, e.item)
    ensures KeepAliveInv(Expire(b, order, now))
  {
    ExpireKeepsEntries(b, order, now);
    ExpireKeepsWatch(b, order, now);
    ExpireKeepsStanding(b, order, now);
  }
}
