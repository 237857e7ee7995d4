/** What the broker's event loop does to its objects: connections, hang-ups, data and maintenance. Whatever
    it does is the next steps of one run, of broker and tree, so that what is proved over runs is proved
    of the objects. */
module BrokerLoop {
  import opened BrokerModel
  import opened BrokerInvariants
  import opened BrokerRuns
  import opened KeepAlive
  import opened JointRuns
  import opened Sessions
  import opened TreeSteps
  import opened SessionManagers
  import opened MqttSessions

  /** A broker starts with a run of no steps. */
  method StartBroker(ghost now: int) returns (m: ManageSessions)
    ensures Steady(m) && m.run == Start(now) && fresh(m)
  {
    m := new ManageSessions(now);
    assert Initial<ClientSession>(now).sessions.Keys == {};
    StartIsRun<ClientSession>(now);
    RunHasInv(m.run, m.View(), m.topicTree.ops);
  }

  lemma StartIsRun<S>(now: int)
    ensures Ends(Start<S>(now), Initial(now), [])
  {
    assert Start<S>(now).states[0] == Initial(now);
  }

  /** The run has gone on from `r` by these steps to where the manager is. */
  ghost predicate Continues(m: ManageSessions, r: Joint<ClientSession>, steps: seq<Step<ClientSession>>)
    reads m, m.created, m.expiryHeap, m.retransmitHeap, m.topicTree, m.topicTree.repr
  {
    Steady(m) && GoesOn(r, m.run) && m.run.steps == r.steps + steps
  }

  method OpenTransport(m: ManageSessions)
    requires Steady(m)
    modifies m`transports, m`nextTransport, m`run
    ensures Continues(m, old(m.run), [DoOpen])
  {
    ghost var b := m.View();
    var _ := m.AddSession();
    NextStep(m, b, DoOpen);
  }

  method NewConnection(m: ManageSessions) returns (session: MqttSession)
    requires Steady(m)
    modifies m`transports, m`nextTransport, m`run
    ensures Continues(m, old(m.run), [DoOpen])
    ensures fresh(session) && session.transport == old(m.nextTransport) && session.clientId == ""
  {
    session := new MqttSession(m.nextTransport);
    OpenTransport(m);
  }

  method CloseConnection(m: ManageSessions, t: nat)
    requires Steady(m)
    modifies m`transports, m`run
    ensures Continues(m, old(m.run), [DoClose(t)])
  {
    ghost var b := m.View();
    m.ForceDisconnect(t);
    NextStep(m, b, DoClose(t));
  }

  /** A step that does nothing to the tree has been made; it is recorded. */
  ghost method NextStep(m: ManageSessions, b: Broker<ClientSession>, step: Step<ClientSession>)
    requires m.Sound() && m.topicTree.Valid() && Ends(m.run, b, m.topicTree.ops)
    requires Enabled(b, step) && RegistryOk(b) && m.View() == Next(b, step)
    requires TreeDid(b, step, m.topicTree.ops, m.topicTree.ops, [])
    modifies m`run
    ensures Continues(m, old(m.run), [step]) && m.View() == old(m.View())
  {
    ghost var r := StepOn(m.run, b, m.topicTree.ops, step, m.topicTree.ops, []);
    GoOn(m, r);
  }

  /** Expired sessions are processed, unless that hangs. */
  method Expire(m: ManageSessions, now: int) returns (hangs: bool, ghost order: seq<Timed<ClientSession>>)
    requires Steady(m) && m.clock <= now
    modifies m`registry, m`transports, m`clock, m`run, m.created`connected, m.created`expiryMs, m.expiryHeap
    ensures hangs <==> Hangs(old(m.View()), now)
    ensures !hangs ==> Continues(m, old(m.run), [DoExpire(order, now)]) && m.clock == now
  {
    ghost var b := m.View();
    hangs, order := m.ProcessExpiredSessions(now);
    if !hangs {
      assert unchanged(m.topicTree) && unchanged(m.topicTree.repr);
      RecordExpiry(m, b, order, now);
    }
  }

  lemma DueIsLive<S>(b: Broker<S>, order: seq<Timed<S>>, now: int, e: Timed<S>)
    requires DrainOrder(b, order, now) && !Hangs(b, now) && e in order
    ensures Live(b, e.item)
  {
    assert e in multiset(order);
  }

  lemma ExpireSetsClock<S>(b: Broker<S>, order: seq<Timed<S>>, now: int)
    requires ExpiryOk(b) && b.clock <= now && DrainOrder(b, order, now) && forall e | e in order :: e.item in b.sessions
    ensures BrokerModel.Expire(b, order, now).clock == now
  {
    ExpirePhases(b, order, now);
  }

  lemma DidExpire<S>(b: Broker<S>, order: seq<Timed<S>>, now: int)
    requires KeepAliveInv(b) && b.clock <= now && DrainOrder(b, order, now)
    requires !Hangs(b, now)
    ensures forall e | e in order :: e.item in b.sessions
    ensures Did(b, DoExpire(order, now), BrokerModel.Expire(b, order, now)) && BrokerModel.Expire(b, order, now).clock == now
  {
    forall e | e in order ensures Live(b, e.item) { DueIsLive(b, order, now, e); }
    ExpireSetsClock(b, order, now);
  }

  ghost method RecordExpiry(m: ManageSessions, b: Broker<ClientSession>, order: seq<Timed<ClientSession>>, now: int)
    requires m.Sound() && m.topicTree.Valid() && Ends(m.run, b, m.topicTree.ops)
    requires KeepAliveInv(b) && b.clock <= now && DrainOrder(b, order, now) && !Hangs(b, now)
    requires m.View() == BrokerModel.Expire(b, order, now)
    modifies m`run
    ensures Continues(m, old(m.run), [DoExpire(order, now)])
    ensures m.clock == now
  {
    DidExpire(b, order, now);
    NextStep(m, b, DoExpire(order, now));
  }

  /** Due deliveries are retransmitted, until none can be. */
  method Retransmit(m: ManageSessions, due: int, readings: nat -> int)
    requires Steady(m) && m.clock <= due && Ticks(due, readings)
    modifies m`sent, m`clock, m`run, m.created, m.retransmitHeap, m.topicTree, m.topicTree.repr
    ensures Steady(m) && GoesOn(old(m.run), m.run) && m.Stopped(due)
  {
    ghost var d := m.ProcessRetransmissions(due, readings);
    ghost var r := DrainExtends(m.run, d, due, |d.passes|);
    GoOn(m, r);
  }

  lemma PassIsStep(d: Progress, due: int, i: nat)
    requires Drain(d.states, d.passes, due) && Searched(d) && i < |d.passes|
    ensures var p := d.passes[i]; var step := DoRetransmit(p.entry, due, p.matches, p.now);
            && Enabled(d.states[i], step) && RegistryOk(d.states[i]) && d.states[i + 1] == Next(d.states[i], step)
            && TreeDid(d.states[i], step, d.trees[i], d.trees[i + 1], d.found[i])
  {
    assert PassOk(d.states[i], d.passes[i], due) && d.states[i] in d.states;
  }

  /** The passes of a drain are steps of the run. */
  lemma {:induction false} DrainExtends(run: Joint<ClientSession>, d: Progress, due: int, n: nat)
    returns (r: Joint<ClientSession>)
    requires Drain(d.states, d.passes, due) && Searched(d) && Ends(run, d.states[0], d.trees[0]) && n <= |d.passes|
    ensures Ends(r, d.states[n], d.trees[n]) && GoesOn(run, r)
    decreases n
  {
    if n == 0 {
      r := run;
    } else {
      var i := n - 1;
      r := DrainExtends(run, d, due, i);
      PassIsStep(d, due, i);
      var p := d.passes[i];
      r := StepOn(r, d.states[i], d.trees[i], DoRetransmit(p.entry, due, p.matches, p.now), d.trees[i + 1], d.found[i]);
    }
  }

  /** The end of every round of the loop. */
  method Maintain(m: ManageSessions, now: int, due: int, readings: nat -> int) returns (hangs: bool)
    requires Steady(m) && m.clock <= now <= due && Ticks(due, readings)
    modifies m, m.created, m.expiryHeap, m.retransmitHeap, m.topicTree, m.topicTree.repr
    ensures !hangs ==> Steady(m) && GoesOn(old(m.run), m.run) && m.Stopped(due)
    ensures hangs <==> Hangs(old(m.View()), now)
  {
    ghost var order;
    ghost var before := m.run;
    hangs, order := Expire(m, now);
    if !hangs {
      ghost var between := m.run;
      Retransmit(m, due, readings);
      GoesOnTwice(before, between, m.run);
    }
  }
}
