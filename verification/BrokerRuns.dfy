/** Every step of the broker keeps its invariants, so every reachable state has them. */
module BrokerRuns {
  import opened Wrappers
  import opened InflightHistory
  import opened Sessions
  import opened BrokerModel
  import opened BrokerInvariants
  import opened KeepAlive

  // ---------------------------------------------------------------- transports come and go

  lemma OpenKeeps<S>(b: Broker<S>)
    requires KeepAliveInv(b)
    ensures KeepAliveInv(Open(b))
  {
    var c := Open(b);
    forall s | s in b.sessions ensures Online(b, s) <==> Online(c, s) {
    }
    forall s | s in c.sessions && Monitored(c, s) ensures Watched(c, s) {
      assert Monitored(b, s);
      var e :| e in b.expiry && e.item == s && e.key <= b.sessions[s].Deadline();
      assert e in c.expiry;
    }
  }

  lemma CloseKeeps<S>(b: Broker<S>, t: nat)
    requires KeepAliveInv(b)
    ensures KeepAliveInv(Close(b, t))
  {
    FadingKeeps(b, Close(b, t));
  }

  lemma BadFrameKeeps<S>(b: Broker<S>, t: nat, client: string)
    requires KeepAliveInv(b)
    ensures KeepAliveInv(BadFrame(b, t, client))
  {
    FadingKeeps(b, BadFrame(b, t, client));
  }

  // ---------------------------------------------------------------- CONNECT

  lemma TakeOverFades<S>(b: Broker<S>, r: ConnectRequest)
    requires RegistryOk(b)
    ensures Fading(b, TakeOver(b, r)) && CutOff(b, TakeOver(b, r))
    ensures r.cleanSession ==> r.clientId !in TakeOver(b, r).registry
    ensures !r.cleanSession ==> TakeOver(b, r).registry == b.registry
    ensures r.clientId in b.registry ==> !TakeOver(b, r).sessions[b.registry[r.clientId]].connected
  {
  }

  /** When a client resumes, its session's transport is never in the session table, so the code that
      sends its stored packets again to that transport runs exactly when this CONNECT came over it. */
  lemma ResumeResendsIff<S>(b: Broker<S>, t: nat, r: ConnectRequest)
    requires KeepAliveInv(b) && Resumes(b, r) && b.held == Some(t)
    ensures var s := b.registry[r.clientId];
            && !Online(TakeOver(b, r), s)
            && (Writable(TakeOver(b, r), s) <==> b.sessions[s].transport == Some(t))
  {
    TakeOverFades(b, r);
    FadingKeeps(b, TakeOver(b, r));
    assert Live(TakeOver(b, r), b.registry[r.clientId]);
  }

  /** What a CONNECT makes of a session that is there: it may be resumed, and it may be disconnected. */
  ghost predicate Resumption(d: Session, d': Session, resumed: bool)
  {
    && d'.clientId == d.clientId && d'.transport == d.transport && d'.messageQueue == d.messageQueue
    && (d'.connected ==> d.connected) && d'.history == d.history + if resumed then [Resumed] else []
  }

  ghost predicate KeepsSessions<S>(b: Broker<S>, c: Broker<S>, r: ConnectRequest, resumes: bool)
  {
    forall s | s in b.sessions ::
      && s in c.sessions
      && Resumption(b.sessions[s], c.sessions[s], resumes && r.clientId in b.registry && b.registry[r.clientId] == s)
  }

  /** What a CONNECT changes. */
  ghost predicate ConnectedFrom<S>(b: Broker<S>, r: ConnectRequest, newcomer: S, now: int, c: Broker<S>)
  {
    && c.retransmit == b.retransmit && c.clock == now && (forall e | e in b.expiry :: e in c.expiry)
    && (forall k | k in c.registry ::
          || (k in b.registry && c.registry[k] == b.registry[k])
          || (Registers(b, r) && k == r.clientId && c.registry[k] == newcomer))
    && KeepsSessions(b, c, r, Resumes(b, r))
  }

  lemma ConnectChanges<S>(b: Broker<S>, t: nat, r: ConnectRequest, newcomer: S, order: ResendOrder, now: int)
    requires RegistryOk(b) && (Registers(b, r) ==> newcomer !in b.sessions)
    ensures ConnectedFrom(b, r, newcomer, now, HandleConnect(b, t, r, newcomer, order, now))
  {
    var b0 := b.(clock := now);
    var b1 := TakeOver(b0, r);
    TakeOverFades(b0, r);
    var c := Admit(b1, Resumes(b, r), t, r, newcomer, order, now);
    AdmitChanges(b1, Resumes(b, r), t, r, newcomer, order, now);
    AdmitKeepsSessions(b1, Resumes(b, r), t, r, newcomer, order, now);
    FadesThenKeeps(b0, b1, c, r, Resumes(b, r));
    assert KeepsSessions(b, Emit(c, ConnackTo(t, Resumes(b, r), r.level)), r, Resumes(b, r));
  }

  lemma FadesThenKeeps<S>(b: Broker<S>, b1: Broker<S>, c: Broker<S>, r: ConnectRequest, resumes: bool)
    requires Fading(b, b1) && (resumes ==> b1.registry == b.registry) && KeepsSessions(b1, c, r, resumes)
    ensures KeepsSessions(b, c, r, resumes)
  {
    forall s | s in b.sessions ensures s in b1.sessions && Resumption(b.sessions[s], b1.sessions[s], false) {
    }
  }

  lemma AdmitChanges<S>(b: Broker<S>, resumes: bool, t: nat, r: ConnectRequest, newcomer: S, order: ResendOrder, now: int)
    requires RegistryOk(b) && (resumes ==> r.clientId in b.registry)
    ensures var c := Admit(b, resumes, t, r, newcomer, order, now);
            && c.retransmit == b.retransmit && c.clock == b.clock && (forall e | e in b.expiry :: e in c.expiry)
            && c.registry == (if !resumes && r.level == 4 then b.registry[r.clientId := newcomer] else b.registry)
  {
  }

  lemma AdmitKeepsSessions<S>(b: Broker<S>, resumes: bool, t: nat, r: ConnectRequest, newcomer: S, order: ResendOrder, now: int)
    requires RegistryOk(b) && (resumes ==> r.clientId in b.registry)
    requires !resumes && r.level == 4 ==> newcomer !in b.sessions
    ensures KeepsSessions(b, Admit(b, resumes, t, r, newcomer, order, now), r, resumes)
  {
  }

  /** A step that keeps a session's old standing leaves it watched if it was. */
  lemma StillWatched<S>(b: Broker<S>, c: Broker<S>, x: S)
    requires x in b.sessions && x in c.sessions && Watched(b, x)
    requires c.sessions[x].Deadline() == b.sessions[x].Deadline() && forall e | e in b.expiry :: e in c.expiry
    ensures Watched(c, x)
  {
    var e :| e in b.expiry && e.item == x && e.key <= b.sessions[x].Deadline();
    assert e in c.expiry;
  }

  /** Changing the terms of a session that is not connected disturbs nothing. */
  lemma ResumeKeepsWatch<S>(b: Broker<S>, s: S, d: Session)
    requires AllWatched(b) && s in b.sessions && d.clientId == b.sessions[s].clientId && !d.connected
    ensures AllWatched(With(b, s, d))
  {
    var c := With(b, s, d);
    forall x | x in c.sessions && Monitored(c, x) ensures Watched(c, x) {
      assert Monitored(b, x);
      StillWatched(b, c, x);
    }
  }

  lemma ResumeKeeps<S>(b: Broker<S>, s: S, d: Session)
    requires KeepAliveInv(b) && s in b.sessions && !b.sessions[s].connected
    requires d.clientId == b.sessions[s].clientId && d.transport == b.sessions[s].transport && !d.connected
    requires d.lastActivity == b.sessions[s].lastActivity
    ensures KeepAliveInv(With(b, s, d))
  {
    ResumeKeepsWatch(b, s, d);
    var c := With(b, s, d);
    forall x | x in c.sessions ensures (Live(c, x) <==> Live(b, x)) && (Online(c, x) <==> Online(b, x)) {
    }
  }

  lemma RegisteredLive<S>(b: Broker<S>, s: S, d: Session)
    requires s !in b.sessions && d.clientId !in b.registry
    ensures var c := Registered(b, s, d);
            forall x | x in b.sessions :: (Live(c, x) ==> Live(b, x)) && (Online(c, x) <==> Online(b, x))
  {
  }

  lemma RegisterKeepsWatch<S>(b: Broker<S>, s: S, d: Session)
    requires AllWatched(b) && s !in b.sessions && d.clientId !in b.registry
    ensures var c := Registered(b, s, d);
            forall x | x in c.sessions && Monitored(c, x) && x != s :: Watched(c, x)
  {
    var c := Registered(b, s, d);
    RegisteredLive(b, s, d);
    forall x | x in c.sessions && Monitored(c, x) && x != s ensures Watched(c, x) {
      assert Monitored(b, x);
      StillWatched(b, c, x);
    }
  }

  lemma RegisterKeepsEntries<S>(b: Broker<S>, s: S, d: Session)
    requires ExpiryOk(b) && s !in b.sessions
    ensures ExpiryOk(Registered(b, s, d)) && NoEntry(Registered(b, s, d), s)
  {
  }

  lemma RegisterKeepsStanding<S>(b: Broker<S>, s: S, d: Session)
    requires RegistryOk(b) && ActivityOk(b) && TransportsOk(b) && OfflineOk(b)
    requires s !in b.sessions && d.clientId !in b.registry
    requires d.connected && d.lastActivity == b.clock && d.transport.Some? && d.transport.value < b.nextTransport
    ensures var c := Registered(b, s, d); RegistryOk(c) && ActivityOk(c) && TransportsOk(c) && OfflineOk(c)
  {
    RegisteredLive(b, s, d);
  }

  lemma ScheduleKeeps<S>(b: Broker<S>, s: S)
    requires RegistryOk(b) && ExpiryOk(b) && ActivityOk(b) && TransportsOk(b) && OfflineOk(b) && NoEntry(b, s)
    requires s in b.sessions && forall x | x in b.sessions && Monitored(b, x) && x != s :: Watched(b, x)
    ensures KeepAliveInv(ScheduleExpiry(b, s))
  {
    var c := ScheduleExpiry(b, s);
    ScheduleOne(b, s);
    ScheduleMoves(b, s);
    RescheduledKeeps(b, c);
    AddedEntry(b.expiry, Timed(b.sessions[s].Deadline(), s));
    forall x | x in c.sessions && Monitored(c, x) ensures Watched(c, x) {
      assert Monitored(b, x);
      if x == s {
        assert Timed(b.sessions[s].Deadline(), s) in c.expiry;
      } else {
        StillWatched(b, c, x);
      }
    }
  }

  lemma RegisterKeeps<S>(b: Broker<S>, s: S, d: Session)
    requires KeepAliveInv(b) && s !in b.sessions && d.clientId !in b.registry
    requires d.connected && d.lastActivity == b.clock && d.transport.Some? && d.transport.value < b.nextTransport
    ensures KeepAliveInv(ScheduleExpiry(Registered(b, s, d), s))
  {
    RegisterKeepsWatch(b, s, d);
    RegisterKeepsEntries(b, s, d);
    RegisterKeepsStanding(b, s, d);
    ScheduleKeeps(Registered(b, s, d), s);
  }

  lemma EmitIsQuiet<S>(b: Broker<S>, o: Output)
    requires KeepAliveInv(b)
    ensures KeepAliveInv(Emit(b, o))
  {
    QuietKeeps(b, Emit(b, o));
  }

  lemma ResendIsQuiet<S>(b: Broker<S>, s: S, order: ResendOrder)
    requires KeepAliveInv(b) && s in b.sessions
    ensures KeepAliveInv(ResendStored(b, s, order)) && ResendStored(b, s, order).sessions == b.sessions
  {
    QuietKeeps(b, ResendStored(b, s, order));
  }

  lemma ConnectKeeps<S>(b: Broker<S>, t: nat, r: ConnectRequest, newcomer: S, order: ResendOrder, now: int)
    requires KeepAliveInv(b) && b.clock <= now && t < b.nextTransport
    requires Registers(b, r) ==> newcomer !in b.sessions
    ensures KeepAliveInv(HandleConnect(b, t, r, newcomer, order, now))
  {
    var b0 := b.(clock := now);
    QuietKeeps(b, b0);
    var b1 := TakeOver(b0, r);
    TakeOverFades(b0, r);
    FadingKeeps(b0, b1);
    if Resumes(b, r) {
      var s := b.registry[r.clientId];
      ResendIsQuiet(b1, s, order);
      ResumeKeeps(ResendStored(b1, s, order), s, ResumedData(b1.sessions[s], r));
    } else if r.level == 4 {
      RegisterKeeps(b1, newcomer, FirstData(r, t, now));
    }
    EmitIsQuiet(Admit(b1, Resumes(b, r), t, r, newcomer, order, now), ConnackTo(t, Resumes(b, r), r.level));
  }

  lemma ConnectStepKeeps<S>(b: Broker<S>, t: nat, r: ConnectRequest, newcomer: S, order: ResendOrder, now: int)
    requires KeepAliveInv(b) && b.clock <= now && t < b.nextTransport
    requires Registers(b, r) ==> newcomer !in b.sessions
    ensures KeepAliveInv(Release(HandleConnect(Hold(b, t), t, r, newcomer, order, now)))
  {
    HeldOrNot(b, Some(t));
    ConnectKeeps(Hold(b, t), t, r, newcomer, order, now);
    HeldOrNot(HandleConnect(Hold(b, t), t, r, newcomer, order, now), None);
  }

  /** Whose packet is being handled is nothing to keep-alive. */
  lemma HeldOrNot<S>(b: Broker<S>, held: Option<nat>)
    requires KeepAliveInv(b)
    ensures KeepAliveInv(b.(held := held))
  {
    QuietKeeps(b, b.(held := held));
  }

  // ---------------------------------------------------------------- storage across the other steps

  /** No session's maps or history have changed, except for sessions whose own are again consistent. */
  ghost predicate StorageKept<S>(b: Broker<S>, c: Broker<S>)
  {
    && c.retransmit == b.retransmit
    && (forall s | s in b.sessions :: s in c.sessions)
    && (forall s | s in c.sessions :: HistoryOk(c.sessions[s])
          || (s in b.sessions && SameStore(b.sessions[s], c.sessions[s])))
  }

  ghost predicate SameStore(d: Session, d': Session)
  {
    d'.inflight == d.inflight && d'.inflightAck == d.inflightAck && d'.history == d.history && d'.routed == d.routed
  }

  lemma KeptStorage<S>(b: Broker<S>, c: Broker<S>)
    requires StorageInv(b) && StorageKept(b, c)
    ensures StorageInv(c)
  {
  }

  lemma FadingKeepsStorage<S>(b: Broker<S>, c: Broker<S>)
    requires StorageInv(b) && Fading(b, c)
    ensures StorageInv(c)
  {
    KeptStorage(b, c);
  }

  lemma RescheduledKeepsStorage<S>(b: Broker<S>, c: Broker<S>)
    requires StorageInv(b) && Rescheduled(b, c)
    ensures StorageInv(c)
  {
    KeptStorage(b, c);
  }

  lemma RegisterKeepsStorage<S>(b: Broker<S>, s: S, d: Session)
    requires StorageInv(b) && HistoryOk(d)
    ensures StorageInv(ScheduleExpiry(Registered(b, s, d), s))
  {
    var c := Registered(b, s, d);
    assert StorageInv(c);
    ScheduleMoves(c, s);
    RescheduledKeepsStorage(c, ScheduleExpiry(c, s));
  }

  lemma ResumeKeepsStorage<S>(b: Broker<S>, s: S, order: ResendOrder, r: ConnectRequest)
    requires StorageInv(b) && s in b.sessions
    ensures StorageInv(With(ResendStored(b, s, order), s, ResumedData(b.sessions[s], r)))
  {
    HistoryStep(b.sessions[s], ResumedData(b.sessions[s], r), Resumed);
    KeptStorage(b, ResendStored(b, s, order));
    WithKeepsStorage(ResendStored(b, s, order), s, ResumedData(b.sessions[s], r));
  }

  lemma ConnectKeepsStorage<S>(b: Broker<S>, t: nat, r: ConnectRequest, newcomer: S, order: ResendOrder, now: int)
    requires RegistryOk(b) && StorageInv(b)
    ensures StorageInv(HandleConnect(b, t, r, newcomer, order, now))
  {
    var b0 := b.(clock := now);
    var b1 := TakeOver(b0, r);
    TakeOverFades(b0, r);
    FadingKeepsStorage(b0, b1);
    if r.clientId in b.registry && !r.cleanSession {
      ResumeKeepsStorage(b1, b.registry[r.clientId], order, r);
    } else if r.level == 4 {
      RegisterKeepsStorage(b1, newcomer, FirstData(r, t, now));
    }
  }

  lemma ExpireKeepsStorage<S>(b: Broker<S>, order: seq<Timed<S>>, now: int)
    requires StorageInv(b) && ExpiryOk(b) && DrainOrder(b, order, now) && b.clock <= now
    requires forall e | e in order :: e.item in b.sessions
    ensures StorageInv(Expire(b, order, now))
  {
    ExpirePhases(b, order, now);
    var popped := b.(clock := now, expiry := b.expiry - multiset(order));
    var b1 := DisconnectAll(popped, Overdue(b, order, now));
    FadingKeepsStorage(popped, b1);
    RescheduledKeepsStorage(b1, Expire(b, order, now));
  }

  lemma TransportsKeepStorage<S>(b: Broker<S>, t: nat, client: string)
    requires StorageInv(b)
    ensures StorageInv(Open(b)) && StorageInv(Close(b, t)) && StorageInv(BadFrame(b, t, client))
  {
    KeptStorage(b, Open(b));
    KeptStorage(b, Close(b, t));
    KeptStorage(b, BadFrame(b, t, client));
  }

  // ---------------------------------------------------------------- every step, every run

  /** Between steps no packet is being handled. */
  ghost predicate Inv<S>(b: Broker<S>)
  {
    KeepAliveInv(b) && StorageInv(b) && b.held == None
  }

  /** Most steps leave registry, transports, expiry heap and every session's standing alone. */
  lemma QuietStep<S>(b: Broker<S>, step: Step<S>)
    requires KeepAliveInv(b) && Enabled(b, step)
    requires !step.DoOpen? && !step.DoClose? && !step.DoBadFrame? && !step.DoConnect? && !step.DoExpire?
    ensures Quiet(b, Next(b, step))
  {
    match step
    case DoPublish(t, client, p, ms, now) => PublishIsQuiet(Hold(b, t), t, client, p, ms, now);
    case DoPuback(client, id, now) => AcksAreQuiet(b, 0, client, id, now);
    case DoPubrec(t, client, id, now) => AcksAreQuiet(b, t, client, id, now);
    case DoPubrel(t, client, id, ms, now) => PubrelIsQuiet(Hold(b, t), t, client, id, ms, now);
    case DoPubcomp(client, id, now) => AcksAreQuiet(b, 0, client, id, now);
    case DoSubscribe(t, client, id, fs, now) => TouchIsQuiet(b, client, now);
    case DoPingreq(t, client, now) => TouchIsQuiet(b, client, now);
    case DoRetransmit(e, _, ms, now) => RetransmitIsQuiet(b, e, ms, now);
    case _ =>
  }

  lemma StepKeepsKeepAlive<S>(b: Broker<S>, step: Step<S>)
    requires KeepAliveInv(b) && Enabled(b, step)
    ensures KeepAliveInv(Next(b, step))
  {
    match step
    case DoOpen => OpenKeeps(b);
    case DoClose(t) => CloseKeeps(b, t);
    case DoBadFrame(t, client) => BadFrameKeeps(b, t, client);
    case DoConnect(t, r, newcomer, order, now) => ConnectStepKeeps(b, t, r, newcomer, order, now);
    case DoExpire(order, now) => ExpireKeeps(b, order, now);
    case _ =>
      QuietStep(b, step);
      QuietKeeps(b, Next(b, step));
  }

  lemma StepKeepsStorage<S>(b: Broker<S>, step: Step<S>)
    requires RegistryOk(b) && ExpiryOk(b) && StorageInv(b) && Enabled(b, step)
    ensures StorageInv(Next(b, step))
  {
    match step
    case DoOpen => TransportsKeepStorage(b, 0, "");
    case DoClose(t) => TransportsKeepStorage(b, t, "");
    case DoBadFrame(t, client) => TransportsKeepStorage(b, t, client);
    case DoConnect(t, r, newcomer, order, now) => ConnectKeepsStorage(Hold(b, t), t, r, newcomer, order, now);
    case DoPublish(t, client, p, ms, now) => PublishKeepsStorage(Hold(b, t), t, client, p, ms, now);
    case DoSubscribe(t, client, id, fs, now) => TouchKeepsStorage(b, client, now);
    case DoPuback(client, id, now) => AcksKeepStorage(b, 0, client, id, now);
    case DoPubrec(t, client, id, now) => AcksKeepStorage(b, t, client, id, now);
    case DoPubrel(t, client, id, ms, now) => PubrelKeepsStorage(Hold(b, t), t, client, id, ms, now);
    case DoPubcomp(client, id, now) => AcksKeepStorage(b, 0, client, id, now);
    case DoPingreq(t, client, now) => TouchKeepsStorage(b, client, now);
    case DoExpire(order, now) => ExpireKeepsStorage(b, order, now);
    case DoRetransmit(e, due, ms, now) => RetransmitKeepsStorage(b, e, due, ms, now);
  }

  lemma StepsEnd<S>(b: Broker<S>, step: Step<S>)
    requires RegistryOk(b) && ExpiryOk(b) && Enabled(b, step) && b.held == None
    ensures Next(b, step).held == None
  {
    match step
    case DoExpire(order, now) => ExpirePhases(b, order, now);
    case DoRetransmit(e, due, ms, now) =>
      var p := StoredPacket(b.sessions[e.item.session], e.item.packetId, e.item.packetType);
      RouteHolds(b.(clock := now), WithDup(p), ms, now);
    case _ =>
  }

  lemma StepKeepsInv<S>(b: Broker<S>, step: Step<S>)
    requires Inv(b) && Enabled(b, step)
    ensures Inv(Next(b, step))
  {
    StepKeepsKeepAlive(b, step);
    StepKeepsStorage(b, step);
    StepsEnd(b, step);
  }

  /** A run of the broker: its states, and the steps between them. */
  ghost predicate Execution<S>(states: seq<Broker<S>>, steps: seq<Step<S>>)
  {
    && |states| == |steps| + 1
    && (exists clock :: states[0] == Initial(clock))
    && forall i {:trigger steps[i]} | 0 <= i < |steps| ::
         Enabled(states[i], steps[i]) && RegistryOk(states[i]) && states[i + 1] == Next(states[i], steps[i])
  }

  /** Every reachable state has the invariants. */
  lemma {:induction false} ReachableStates<S>(states: seq<Broker<S>>, steps: seq<Step<S>>, i: nat)
    requires Execution(states, steps) && i < |states|
    ensures Inv(states[i])
    decreases i
  {
    if i > 0 {
      ReachableStates(states, steps, i - 1);
      assert states[i - 1 + 1] == Next(states[i - 1], steps[i - 1]);
      StepKeepsInv(states[i - 1], steps[i - 1]);
    }
  }

  /** A run goes on with any step that is enabled where it has come to. */
  lemma OneMoreStep<S>(states: seq<Broker<S>>, steps: seq<Step<S>>, step: Step<S>)
    returns (states': seq<Broker<S>>, steps': seq<Step<S>>)
    requires Execution(states, steps) && Enabled(states[|steps|], step)
    ensures RegistryOk(states[|steps|]) && states' == states + [Next(states[|steps|], step)] && steps' == steps + [step]
    ensures Execution(states', steps')
    ensures states'[|steps|] == states[|steps|] && states'[|steps| + 1] == Next(states[|steps|], step)
  {
    ReachableStates(states, steps, |steps|);
    LongerRun(states, steps, step);
    states', steps' := states + [Next(states[|steps|], step)], steps + [step];
  }

  lemma LongerRun<S>(states: seq<Broker<S>>, steps: seq<Step<S>>, step: Step<S>)
    requires Execution(states, steps) && Enabled(states[|steps|], step) && RegistryOk(states[|steps|])
    ensures Execution(states + [Next(states[|steps|], step)], steps + [step])
  {
    var more, moreSteps := states + [Next(states[|steps|], step)], steps + [step];
    assert more[0] == states[0];
    forall i | 0 <= i < |moreSteps|
      ensures Enabled(more[i], moreSteps[i]) && RegistryOk(more[i]) && more[i + 1] == Next(more[i], moreSteps[i])
    {
      if i < |steps| { assert more[i] == states[i] && more[i + 1] == states[i + 1] && moreSteps[i] == steps[i]; }
    }
  }

  // ---------------------------------------------------------------- a drain of the retransmission heap

  datatype Pass<S> = Pass(entry: Timed<Retry<S>>, matches: seq<Match<S>>, now: int)

  /** A pass that can happen in `c`. */
  ghost predicate PassOk<S>(c: Broker<S>, p: Pass<S>, due: int)
  {
    Enabled(c, DoRetransmit(p.entry, due, p.matches, p.now))
  }

  /** The states that these passes go through; each has the invariants. */
  ghost predicate Drain<S>(states: seq<Broker<S>>, passes: seq<Pass<S>>, due: int)
  {
    && |states| == |passes| + 1
    && (forall c | c in states :: Inv(c))
    && forall i {:trigger passes[i]} | 0 <= i < |passes| ::
         PassOk(states[i], passes[i], due)
         && states[i + 1] == Retransmit(states[i], passes[i].entry, passes[i].matches, passes[i].now)
  }

  lemma PassKeepsInv<S>(c: Broker<S>, p: Pass<S>, due: int)
    requires Inv(c) && c.clock <= p.now && due <= p.now && CanRetransmit(c, p.entry, due)
    requires p.entry in c.retransmit && forall e | e in c.retransmit :: p.entry.key <= e.key
    ensures PassOk(c, p, due) && Inv(Retransmit(c, p.entry, p.matches, p.now))
  {
    StepKeepsInv(c, DoRetransmit(p.entry, due, p.matches, p.now));
  }

  lemma OneMorePass<S>(states: seq<Broker<S>>, passes: seq<Pass<S>>, due: int, p: Pass<S>, d: Broker<S>)
    requires Drain(states, passes, due) && PassOk(states[|passes|], p, due)
    requires d == Retransmit(states[|passes|], p.entry, p.matches, p.now) && Inv(d)
    ensures Drain(states + [d], passes + [p], due)
  {
  }
}
