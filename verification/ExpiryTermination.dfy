/** When the drain of the expiry heap ends. A due entry whose session has been freed is never popped,
    so the drain loops for ever over it: which steps make such an entry, and which runs never do. */
module ExpiryTermination {
  import opened Wrappers
  import opened Sessions
  import opened BrokerModel
  import opened BrokerInvariants
  import opened KeepAlive
  import opened BrokerRuns

  ghost predicate EntriesAlive<S>(b: Broker<S>)
  {
    forall e | e in b.expiry :: Live(b, e.item)
  }

  ghost predicate HasEntry<S>(b: Broker<S>, s: S)
  {
    exists e :: e in b.expiry && e.item == s
  }

  /** The step drops a session from the registry that still has an entry in the heap: a CONNECT with
      a clean session takes over from it, or a bad frame arrives on its behalf and it is clean. */
  ghost predicate Frees<S>(b: Broker<S>, step: Step<S>)
  {
    match step
    case DoConnect(_, r, _, _, _) => Known(b, r.clientId) && r.cleanSession && HasEntry(b, b.registry[r.clientId])
    case DoBadFrame(_, client) =>
      Known(b, client) && b.sessions[b.registry[client]].cleanSession && HasEntry(b, b.registry[client])
    case _ => false
  }

  lemma QuietKeepsAlive<S>(b: Broker<S>, c: Broker<S>)
    requires Quiet(b, c) && EntriesAlive(b)
    ensures EntriesAlive(c)
  {
    forall e | e in c.expiry ensures Live(c, e.item) {
      assert Live(b, e.item);
    }
  }

  /** Dropping a client id frees exactly its session. */
  lemma DropFrees<S>(b: Broker<S>, c: Broker<S>, client: string)
    requires RegistryOk(b) && Known(b, client) && EntriesAlive(b)
    requires c.registry == b.registry - {client} && c.expiry == b.expiry && c.sessions.Keys == b.sessions.Keys
    requires forall s | s in b.sessions :: c.sessions[s].clientId == b.sessions[s].clientId
    ensures EntriesAlive(c) <==> !HasEntry(b, b.registry[client])
  {
    var s := b.registry[client];
    if HasEntry(b, s) {
      var e :| e in b.expiry && e.item == s;
      assert e in c.expiry && !Live(c, s);
    } else {
      forall e | e in c.expiry ensures Live(c, e.item) {
        assert Live(b, e.item) && e.item != s;
      }
    }
  }

  lemma BadFrameAliveIff<S>(b: Broker<S>, t: nat, client: string)
    requires RegistryOk(b) && EntriesAlive(b)
    ensures EntriesAlive(BadFrame(b, t, client)) <==> !Frees(b, DoBadFrame(t, client))
  {
    if Known(b, client) && b.sessions[b.registry[client]].cleanSession {
      DropFrees(b, BadFrame(b, t, client), client);
    }
  }

  lemma TakeOverAliveIff<S>(b: Broker<S>, r: ConnectRequest)
    requires RegistryOk(b) && EntriesAlive(b)
    ensures EntriesAlive(TakeOver(b, r))
       <==> !(Known(b, r.clientId) && r.cleanSession && HasEntry(b, b.registry[r.clientId]))
  {
    TakeOverFades(b, r);
    if Known(b, r.clientId) && r.cleanSession {
      DropFrees(b, TakeOver(b, r), r.clientId);
    }
  }

  /** A new session under a free client id, and its entry, change nothing for the other entries. */
  lemma AdmitAliveIff<S>(b: Broker<S>, resumes: bool, t: nat, r: ConnectRequest, newcomer: S, order: ResendOrder, now: int)
    requires ExpiryOk(b) && RegistryOk(b) && (resumes ==> r.clientId in b.registry)
    requires !resumes ==> r.clientId !in b.registry && (r.level == 4 ==> newcomer !in b.sessions)
    ensures EntriesAlive(Admit(b, resumes, t, r, newcomer, order, now)) <==> EntriesAlive(b)
  {
    if !resumes && r.level == 4 { RegisterAliveIff(b, newcomer, FirstData(r, t, now)); }
  }

  lemma RegisterAliveIff<S>(b: Broker<S>, s: S, d: Session)
    requires ExpiryOk(b) && s !in b.sessions && d.clientId !in b.registry
    ensures EntriesAlive(ScheduleExpiry(Registered(b, s, d), s)) <==> EntriesAlive(b)
  {
    var c := ScheduleExpiry(Registered(b, s, d), s);
    RegisteredStanding(b, s, d);
    ScheduleMoves(Registered(b, s, d), s);
    if EntriesAlive(b) {
      forall e | e in c.expiry ensures Live(c, e.item) {
        if e in b.expiry { assert Live(b, e.item); }
      }
    } else {
      var e :| e in b.expiry && !Live(b, e.item);
      assert e in c.expiry && !Live(c, e.item);
    }
  }

  /** Among the sessions there are, registering a newcomer under a free id changes nobody's standing. */
  lemma RegisteredStanding<S>(b: Broker<S>, s: S, d: Session)
    requires s !in b.sessions && d.clientId !in b.registry
    ensures forall x | x in b.sessions :: Live(ScheduleExpiry(Registered(b, s, d), s), x) <==> Live(b, x)
    ensures Live(ScheduleExpiry(Registered(b, s, d), s), s)
  {
  }

  lemma TakeOverReady<S>(b: Broker<S>, r: ConnectRequest)
    requires KeepAliveInv(b)
    ensures var c := TakeOver(b, r);
            ExpiryOk(c) && RegistryOk(c) && (if Resumes(b, r) then r.clientId in c.registry else r.clientId !in c.registry)
  {
    TakeOverFades(b, r);
    FadingKeeps(b, TakeOver(b, r));
  }

  lemma AdmittedAliveIff<S>(b: Broker<S>, t: nat, r: ConnectRequest, newcomer: S, order: ResendOrder, now: int)
    requires KeepAliveInv(b) && EntriesAlive(b) && (Registers(b, r) ==> newcomer !in b.sessions)
    ensures EntriesAlive(Admit(TakeOver(b, r), Resumes(b, r), t, r, newcomer, order, now))
       <==> !Frees(b, DoConnect(t, r, newcomer, order, now))
  {
    TakeOverReady(b, r);
    TakeOverAliveIff(b, r);
    AdmitAliveIff(TakeOver(b, r), Resumes(b, r), t, r, newcomer, order, now);
  }

  lemma TickKeepsAlive<S>(b: Broker<S>, now: int)
    requires KeepAliveInv(b) && EntriesAlive(b) && b.clock <= now
    ensures KeepAliveInv(b.(clock := now)) && EntriesAlive(b.(clock := now))
  {
    QuietKeeps(b, b.(clock := now));
    QuietKeepsAlive(b, b.(clock := now));
  }

  lemma ConnectAliveIff<S>(b: Broker<S>, t: nat, r: ConnectRequest, newcomer: S, order: ResendOrder, now: int)
    requires KeepAliveInv(b) && EntriesAlive(b) && b.clock <= now && (Registers(b, r) ==> newcomer !in b.sessions)
    ensures EntriesAlive(HandleConnect(b, t, r, newcomer, order, now)) <==> !Frees(b, DoConnect(t, r, newcomer, order, now))
  {
    var b0 := b.(clock := now);
    TickKeepsAlive(b, now);
    var step := DoConnect(t, r, newcomer, order, now);
    assert Resumes(b0, r) == Resumes(b, r) && (Frees(b0, step) == Frees(b, step));
    AdmittedAliveIff(b0, t, r, newcomer, order, now);
    EmitKeepsAlive(Admit(TakeOver(b0, r), Resumes(b, r), t, r, newcomer, order, now), ConnackTo(t, Resumes(b, r), r.level));
  }

  lemma ConnectStepAliveIff<S>(b: Broker<S>, t: nat, r: ConnectRequest, newcomer: S, order: ResendOrder, now: int)
    requires KeepAliveInv(b) && EntriesAlive(b) && b.clock <= now && (Registers(b, r) ==> newcomer !in b.sessions)
    ensures EntriesAlive(Release(HandleConnect(Hold(b, t), t, r, newcomer, order, now)))
       <==> !Frees(b, DoConnect(t, r, newcomer, order, now))
  {
    var c, step := HandleConnect(Hold(b, t), t, r, newcomer, order, now), DoConnect(t, r, newcomer, order, now);
    HeldOrNot(b, Some(t));
    HeldIsAliveOrNot(b, Some(t));
    ConnectAliveIff(Hold(b, t), t, r, newcomer, order, now);
    HeldIsAliveOrNot(c, None);
    assert Frees(Hold(b, t), step) == Frees(b, step);
  }

  lemma HeldIsAliveOrNot<S>(b: Broker<S>, held: Option<nat>)
    ensures EntriesAlive(b.(held := held)) <==> EntriesAlive(b)
  {
    forall s | s in b.sessions ensures Live(b.(held := held), s) <==> Live(b, s) {
    }
  }

  lemma EmitKeepsAlive<S>(b: Broker<S>, o: Output)
    ensures EntriesAlive(Emit(b, o)) <==> EntriesAlive(b)
  {
    forall s | s in b.sessions ensures Live(Emit(b, o), s) <==> Live(b, s) {
    }
  }

  /** An entry that is there after a pass was not due, or its session was merely stale. */
  lemma NotOverdue<S>(b: Broker<S>, order: seq<Timed<S>>, now: int, e: Timed<S>)
    requires ExpiryOk(b) && b.clock <= now && DrainOrder(b, order, now)
    requires forall f | f in order :: f.item in b.sessions
    requires e in Expire(b, order, now).expiry
    ensures e.item in b.sessions && e.item !in Overdue(b, order, now)
  {
    var popped := b.(clock := now, expiry := b.expiry - multiset(order));
    var gone, stale := Overdue(b, order, now), Stale(b, order, now);
    DrainedOnce(b, order, now);
    OverdueAre(b, order, now);
    StaleAre(b, order, now);
    DisconnectAllFades(popped, gone);
    ScheduleAllEntries(DisconnectAll(popped, gone), stale);
    assert e in popped.expiry || e.item in stale;
  }

  lemma StaysLive<S>(b: Broker<S>, order: seq<Timed<S>>, now: int, s: S)
    requires EntriesAlive(b) && DrainOrder(b, order, now) && ExpiryOk(b) && b.clock <= now
    requires forall f | f in order :: f in b.expiry
    requires Live(b, s) && s !in Overdue(b, order, now)
    ensures Live(Expire(b, order, now), s)
  {
    var popped := b.(clock := now, expiry := b.expiry - multiset(order));
    var gone := Overdue(b, order, now);
    OverdueAre(b, order, now);
    forall x | x in gone ensures Live(popped, x) { assert Live(b, x); }
    DisconnectAllSpares(popped, gone, s);
    ExpirePhases(b, order, now);
  }

  lemma ExpireKeepsAlive<S>(b: Broker<S>, order: seq<Timed<S>>, now: int)
    requires ExpiryOk(b) && EntriesAlive(b) && b.clock <= now && DrainOrder(b, order, now)
    ensures EntriesAlive(Expire(b, order, now))
  {
    DrainedOnce(b, order, now);
    forall e | e in Expire(b, order, now).expiry ensures Live(Expire(b, order, now), e.item) {
      NotOverdue(b, order, now, e);
      HasLiveEntry(b, order, now, e);
      StaysLive(b, order, now, e.item);
    }
  }

  /** Whoever has an entry after a pass had one before. */
  lemma HasLiveEntry<S>(b: Broker<S>, order: seq<Timed<S>>, now: int, e: Timed<S>)
    requires ExpiryOk(b) && EntriesAlive(b) && b.clock <= now && DrainOrder(b, order, now)
    requires e in Expire(b, order, now).expiry
    ensures Live(b, e.item)
  {
    var popped := b.(clock := now, expiry := b.expiry - multiset(order));
    DrainedOnce(b, order, now);
    StaleAre(b, order, now);
    DisconnectAllFades(popped, Overdue(b, order, now));
    ScheduleAllEntries(DisconnectAll(popped, Overdue(b, order, now)), Stale(b, order, now));
    assert e in popped.expiry || e.item in Stale(b, order, now);
  }

  // ---------------------------------------------------------------- every step, every run

  /** As long as every entry's session is alive, a step leaves them so exactly if it frees no session
      that still has an entry. */
  lemma EntriesStayAliveIff<S>(b: Broker<S>, step: Step<S>)
    requires KeepAliveInv(b) && EntriesAlive(b) && Enabled(b, step)
    ensures EntriesAlive(Next(b, step)) <==> !Frees(b, step)
  {
    match step
    case DoOpen => OpenKeepsAlive(b);
    case DoClose(t) => CloseKeepsAlive(b, t);
    case DoBadFrame(t, client) => BadFrameAliveIff(b, t, client);
    case DoConnect(t, r, newcomer, order, now) => ConnectStepAliveIff(b, t, r, newcomer, order, now);
    case DoExpire(order, now) => ExpireKeepsAlive(b, order, now);
    case _ =>
      QuietStep(b, step);
      QuietKeepsAlive(b, Next(b, step));
  }

  lemma OpenKeepsAlive<S>(b: Broker<S>)
    requires EntriesAlive(b)
    ensures EntriesAlive(Open(b))
  {
    forall e | e in b.expiry ensures Live(Open(b), e.item) { assert Live(b, e.item); }
  }

  lemma CloseKeepsAlive<S>(b: Broker<S>, t: nat)
    requires EntriesAlive(b)
    ensures EntriesAlive(Close(b, t))
  {
    forall e | e in b.expiry ensures Live(Close(b, t), e.item) { assert Live(b, e.item); }
  }

  lemma ExecutionStepKeepsAlive<S>(states: seq<Broker<S>>, steps: seq<Step<S>>, i: nat)
    requires Execution(states, steps) && i < |steps| && EntriesAlive(states[i]) && !Frees(states[i], steps[i])
    ensures EntriesAlive(states[i + 1])
  {
    ReachableStates(states, steps, i);
    EntriesStayAliveIff(states[i], steps[i]);
  }

  /** A run in which no step frees a session that still has an entry never meets a dead entry, so
      that no pass over the expiry heap can hang. */
  lemma {:induction false} NoPassHangs<S>(states: seq<Broker<S>>, steps: seq<Step<S>>, i: nat)
    requires Execution(states, steps) && i < |states|
    requires forall j | 0 <= j < i :: !Frees(states[j], steps[j])
    ensures EntriesAlive(states[i])
    decreases i
  {
    if i > 0 {
      NoPassHangs(states, steps, i - 1);
      ExecutionStepKeepsAlive(states, steps, i - 1);
      assert i - 1 + 1 == i;
    }
  }

  lemma TwoTransports() returns (states: seq<Broker<nat>>, steps: seq<Step<nat>>)
    ensures Execution(states, steps) && |steps| == 2
    ensures states[2] == Open(Open(Initial(0)))
  {
    states, steps := [Initial(0)], [];
    states, steps := OneMoreStep(states, steps, DoOpen);
    states, steps := OneMoreStep(states, steps, DoOpen);
  }

  /** A run that does: a client with a keep-alive of one second connects twice with a clean session.
      Its first session is freed, but the entry at 1500 ms stays; once due, it hangs the pass. */
  lemma ReconnectLeavesDeadEntry() returns (states: seq<Broker<nat>>, steps: seq<Step<nat>>)
    ensures Execution(states, steps) && |steps| == 4
    ensures var b := states[4]; Timed(1500, 0) in b.expiry && !Live(b, 0)
  {
    var r := ConnectRequest(4, true, 1, "a");
    states, steps := TwoTransports();
    FirstConnect(states[2], r);
    states, steps := OneMoreStep(states, steps, DoConnect(0, r, 0, NO_RESEND, 0));
    SecondConnect(states[3], r);
    states, steps := OneMoreStep(states, steps, DoConnect(1, r, 1, NO_RESEND, 0));
  }

  ghost predicate OneSession(b: Broker<nat>)
  {
    && b.registry == map["a" := 0] && b.sessions.Keys == {0} && Timed(1500, 0) in b.expiry
    && b.sessions[0].clientId == "a" && b.clock == 0 && b.nextTransport == 2
  }

  lemma FirstConnect(b: Broker<nat>, r: ConnectRequest)
    requires b.registry == map[] && b.sessions == map[] && b.clock == 0 && b.nextTransport == 2
    requires r == ConnectRequest(4, true, 1, "a")
    ensures RegistryOk(b) && Enabled(b, DoConnect(0, r, 0, NO_RESEND, 0))
    ensures OneSession(Next(b, DoConnect(0, r, 0, NO_RESEND, 0)))
  {
  }

  lemma SecondConnect(b: Broker<nat>, r: ConnectRequest)
    requires OneSession(b) && r == ConnectRequest(4, true, 1, "a")
    ensures RegistryOk(b) && Enabled(b, DoConnect(1, r, 1, NO_RESEND, 0))
    ensures var c := Next(b, DoConnect(1, r, 1, NO_RESEND, 0)); Timed(1500, 0) in c.expiry && !Live(c, 0)
  {
  }
}
