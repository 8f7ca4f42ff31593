/**
  Tracked streams after their session has given its slots back: a run in which one remains, and who the
  session of such a stream can be.
*/
module LedgerStreams {
  import opened Wrappers
  import opened Lifecycles
  import opened Pools
  import opened Ledgers
  import opened LedgerInvariant
  import opened LedgerEnds
  import opened LedgerTheorems
  import opened LedgerProgress
  import B = Budgets
  import F = Feeds
  import IP = Slots
  import Srv = Servers
  import T = Tasks
  import W = Windows

  // ----- a stream that outlives its session's slots -----

  const Visitor := Offer(0, 0, true, true, true, true, false, IP.Readings(0, 0, 0), 0, 0.0)

  const StreamPumpOnly: set<Pump> := {StreamPump(Bidirectional)}

  /** One enabled step, and where it leads. */
  ghost predicate Leads(cfg: Config, s: State, e: Event, t: State) {
    cfg.Valid() && Enabled(s, cfg, e) && Step(s, cfg, e) == t
  }

  lemma Nowhere(s: State, cfg: Config) returns (es: seq<Event>)
    requires cfg.Valid()
    ensures Follow(s, cfg, es) == Some(s)
  {
    es := [];
  }

  lemma Then(s: State, cfg: Config, es: seq<Event>, t: State, e: Event, u: State) returns (more: seq<Event>)
    requires cfg.Valid() && Follow(s, cfg, es) == Some(t) && Leads(cfg, t, e, u)
    ensures more == es + [e] && Follow(s, cfg, more) == Some(u)
  {
    hide Enabled, Step;
    more := es + [e];
    FollowBoth(s, cfg, es, [e]);
    FollowOne(t, cfg, e, []);
    assert [e] + [] == [e];
  }

  function StartingServer(): Srv.Server {
    Srv.Server(ServerState.Starting, Some(0), Some(0), map[0 := Srv.DriverStarting], 1, {}, None, 0)
  }

  function RunningServer(): Srv.Server {
    Srv.Server(ServerState.Running, Some(0), Some(0), map[0 := Srv.StartSettled], 1, {}, None, 0)
  }

  function VisitorAt(tasks: T.Core<WorkId>, admission: Option<WorkId>, admitted: bool, streams: int): Session {
    Session(0, 0, F.EmptyFeed, W.Meter(0.0, 0), tasks, admission, admitted, false, false, false, false, streams, 0,
            if admitted then StreamPumpOnly else {}, None)
  }

  function With(m: Session, pool: Pool, streams: map<StreamId, Stream>): State {
    State(RunningServer(), map[0 := 0], {0}, map[0 := m], map[0 := IP.Record(1, [0])], pool, 0, streams, |streams|)
  }

  const OneStream: map<StreamId, Stream> := map[0 := Stream(0, Bidirectional)]

  function Admitting(phase: Phase): State {
    With(VisitorAt(T.Core(0, [], true), Some(0), false, 0),
         Pool(B.Budget(1, if phase.Running? then 1 else 0, []), map[0 := Work(0, Admission, 0, phase)], 1, []), map[])
  }

  function Idling(admitted: bool): State {
    With(VisitorAt(T.Core(0, [], true), None, admitted, 0), Pool(B.Budget(0, 0, []), map[], 1, [0]), map[])
  }

  function Handling(phase: Phase): State {
    With(VisitorAt(T.Core(1, [], true), None, true, 1),
         Pool(B.Budget(1, if phase.Running? then 1 else 0, []), map[1 := Work(0, Task, 0, phase)], 2, [0]), OneStream)
  }

  function Streaming(): State {
    With(VisitorAt(T.Core(0, [], true), None, true, 1), Pool(B.Budget(0, 0, []), map[], 2, [0, 1]), OneStream)
  }

  lemma Starts(cfg: Config)
    requires cfg.Valid()
    ensures Leads(cfg, Initial(), ServerMoved(Srv.Bootstrap, []), Initial().(server := StartingServer()))
    ensures Leads(cfg, Initial().(server := StartingServer()), ServerMoved(Srv.DriverStarted(0), []),
                  Initial().(server := RunningServer()))
  {
  }

  lemma FirstOfItsAddress(limits: IP.Limits)
    requires limits.Valid()
    ensures IP.Acquire(map[], limits, 0, IP.Readings(0, 0, 0)) == (map[0 := IP.Record(1, [0])], true)
  {
    var empty: IP.Table := map[];
    assert IP.Admitted(empty, limits, 0, 0) == (empty, true);
    assert IP.Attempts(empty, 0) == [] && IP.Purge([], 0 - IP.WINDOW_MS) == [];
    assert [] + [0] == [0];
  }

  lemma AdmitsOne(cfg: Config)
    requires cfg.Valid()
    ensures Leads(cfg, Initial().(server := RunningServer()), Offered(0, Visitor), Admitting(Phase.Running))
  {
    var s := Initial().(server := RunningServer());
    FirstOfItsAddress(cfg.ip);
    assert Judge(s, cfg, Visitor) == Admitted;
    assert Step(s, cfg, Offered(0, Visitor)).pool == Admitting(Phase.Running).pool;
  }

  lemma AdmissionReturns(cfg: Config)
    requires cfg.Valid()
    ensures Leads(cfg, Admitting(Phase.Running), CallReturned(0), Admitting(Returned))
  {
    NobodyWaits(Admitting(Phase.Running).pool, cfg.handlers, 0);
    assert Step(Admitting(Phase.Running), cfg, CallReturned(0)).pool == Admitting(Returned).pool;
  }

  lemma AdmissionSettles(cfg: Config)
    requires cfg.Valid()
    ensures Leads(cfg, Admitting(Returned), AdmissionWorkSettled(0), Idling(false))
  {
    assert Step(Admitting(Returned), cfg, AdmissionWorkSettled(0)).pool == Idling(false).pool;
  }

  lemma AdmissionConcludes(cfg: Config)
    requires cfg.Valid()
    ensures Leads(cfg, Idling(false), AdmissionConcluded(0, StreamPumpOnly), Idling(true))
  {
    assert {} + StreamPumpOnly == StreamPumpOnly;
  }

  lemma NobodyWaits(p: Pool, limits: B.Limits, w: WorkId)
    requires p.budget.waiters == [] && 0 < p.budget.running <= limits.concurrency
    ensures Leave(p, limits, w) ==
            p.(budget := p.budget.(running := p.budget.running - 1), work := SetPhase(p.work, w, Returned))
  {
    var b := p.budget.(running := p.budget.running - 1);
    assert B.NewlyGranted(b, limits) == [];
  }

  lemma ReadsOne(cfg: Config)
    requires cfg.Valid() && 1 <= cfg.maxStreams && 1 <= cfg.maxBidirectional
    ensures Leads(cfg, Idling(true), StreamRead(0, Bidirectional, 0, false), Handling(Started))
  {
    var t := Step(Idling(true), cfg, StreamRead(0, Bidirectional, 0, false));
    assert t.pool == Handling(Started).pool;
    assert t.sessions == Handling(Started).sessions;
  }

  lemma HandlerBegins(cfg: Config)
    requires cfg.Valid()
    ensures Leads(cfg, Handling(Started), TaskBegan(1), Handling(Phase.Running))
  {
    assert Step(Handling(Started), cfg, TaskBegan(1)).pool == Handling(Phase.Running).pool;
  }

  lemma HandlerReturns(cfg: Config)
    requires cfg.Valid()
    ensures Leads(cfg, Handling(Phase.Running), CallReturned(1), Handling(Returned))
    ensures Leads(cfg, Handling(Returned), TaskSettled(1), Streaming())
  {
    NobodyWaits(Handling(Phase.Running).pool, cfg.handlers, 1);
    assert Step(Handling(Phase.Running), cfg, CallReturned(1)).pool == Handling(Returned).pool;
    assert Step(Handling(Returned), cfg, TaskSettled(1)).pool == Streaming().pool;
  }

  /** A server starts, admits a session and reads one stream from it, whose handler returns. */
  lemma Opens(cfg: Config) returns (es: seq<Event>)
    requires cfg.Valid() && 1 <= cfg.maxStreams && 1 <= cfg.maxBidirectional
    ensures Follow(Initial(), cfg, es) == Some(Streaming())
  {
    hide Leads, Follow;
    Starts(cfg);
    AdmitsOne(cfg);
    AdmissionReturns(cfg);
    AdmissionSettles(cfg);
    AdmissionConcludes(cfg);
    ReadsOne(cfg);
    HandlerBegins(cfg);
    HandlerReturns(cfg);
    es := Nowhere(Initial(), cfg);
    es := Then(Initial(), cfg, es, Initial(), ServerMoved(Srv.Bootstrap, []), Initial().(server := StartingServer()));
    es := Then(Initial(), cfg, es, Initial().(server := StartingServer()), ServerMoved(Srv.DriverStarted(0), []),
               Initial().(server := RunningServer()));
    es := Then(Initial(), cfg, es, Initial().(server := RunningServer()), Offered(0, Visitor), Admitting(Phase.Running));
    es := Then(Initial(), cfg, es, Admitting(Phase.Running), CallReturned(0), Admitting(Returned));
    es := Then(Initial(), cfg, es, Admitting(Returned), AdmissionWorkSettled(0), Idling(false));
    es := Then(Initial(), cfg, es, Idling(false), AdmissionConcluded(0, StreamPumpOnly), Idling(true));
    es := Then(Initial(), cfg, es, Idling(true), StreamRead(0, Bidirectional, 0, false), Handling(Started));
    es := Then(Initial(), cfg, es, Handling(Started), TaskBegan(1), Handling(Phase.Running));
    es := Then(Initial(), cfg, es, Handling(Phase.Running), CallReturned(1), Handling(Returned));
    es := Then(Initial(), cfg, es, Handling(Returned), TaskSettled(1), Streaming());
  }

  function Forced(): Session {
    VisitorAt(T.Core(0, [], false), None, true, 1).(intakeAborted := true, admissionAborted := true)
  }

  function Retiring(pumps: set<Pump>, seen: nat): Session {
    Forced().(finalized := true, pumps := pumps,
              retirement := Some(Retirement(None, StreamPumpOnly, 1 <= seen, 2 <= seen, 3 <= seen)))
  }

  function StoppingServer(phase: Srv.StopPhase): Srv.Server {
    Srv.Server(if phase.StopSettled? then ServerState.Stopped else ServerState.Stopping, Some(0), Some(0),
               map[0 := Srv.StartSettled], 1, {0}, Some(phase), 0)
  }

  function ForcedAt(phase: Srv.StopPhase): State {
    With(Forced(), Streaming().pool, OneStream).(server := StoppingServer(phase))
  }

  function RetiringAt(pumps: set<Pump>, seen: nat): State {
    With(Retiring(pumps, seen), Streaming().pool, OneStream).(server := StoppingServer(Srv.StopSettled), ids := map[])
  }

  lemma NobodyToAbandon(s: State, cfg: Config, h: Handle)
    requires s.pool.budget.waiters == []
    ensures AbandonSession(s, cfg, h) == s.pool
  {
  }

  /** A session with nothing waiting and nothing queued. */
  lemma QuietForce(s: State, cfg: Config, h: Handle)
    requires s.pool.budget.waiters == [] && h in s.sessions && s.sessions[h].tasks.pending == []
    ensures Force(s, cfg, h) ==
            Put(s, h, ForcedOut(s.sessions[h]))
  {
    NobodyToAbandon(s, cfg, h);
  }

  lemma QuietFinalize(s: State, cfg: Config, h: Handle)
    requires s.pool.budget.waiters == [] && h in s.sessions && s.sessions[h].tasks.pending == []
    requires !s.sessions[h].finalized
    ensures Finalize(s, cfg, h) ==
            Put(s, h, Final(s.sessions[h]))
              .(ids := s.ids - {s.sessions[h].id}, queuedBytes := s.queuedBytes - s.sessions[h].feed.bytes)
  {
    NobodyToAbandon(s, cfg, h);
  }

  lemma WalkOne(s: State, cfg: Config, h: Handle)
    requires h in s.sessions
    ensures StopIntakeAll(s, [h]) == StopIntake(s, h)
    ensures ForceAll(s, cfg, [h]) == Force(s, cfg, h)
    ensures FinalizeAll(s, cfg, [h]) == Finalize(s, cfg, h)
  {
    hide StopIntake, Force, Finalize;
    assert [h][1..] == [];
    assert StopIntakeAll(StopIntake(s, h), []) == StopIntake(s, h);
    assert ForceAll(Force(s, cfg, h), cfg, []) == Force(s, cfg, h);
    assert FinalizeAll(Finalize(s, cfg, h), cfg, []) == Finalize(s, cfg, h);
  }

  lemma StopsIntakeOfOne()
    ensures StopIntake(Streaming(), 0) ==
            With(Forced().(admissionAborted := false), Streaming().pool, OneStream)
  {
    assert StopIntake(Streaming(), 0).sessions == map[0 := Forced().(admissionAborted := false)];
  }

  lemma ForceOfOne(cfg: Config)
    ensures ForceAll(StopIntakeAll(Streaming(), [0]), cfg, [0]) == With(Forced(), Streaming().pool, OneStream)
  {
    hide StopIntake, Force, ForceAll, StopIntakeAll;
    StopsIntakeOfOne();
    var stopped := With(Forced().(admissionAborted := false), Streaming().pool, OneStream);
    WalkOne(Streaming(), cfg, 0);
    WalkOne(stopped, cfg, 0);
    QuietForce(stopped, cfg, 0);
    assert map[0 := Forced().(admissionAborted := false)][0 := Forced()] == map[0 := Forced()];
  }

  lemma StopBegins()
    ensures Srv.Stops(RunningServer())
    ensures Srv.Step(RunningServer(), Srv.StopCalled(false)) == StoppingServer(Srv.ClosingSessions)
  {
  }

  lemma ForcesOne(cfg: Config)
    requires cfg.Valid()
    ensures Leads(cfg, Streaming(), ServerMoved(Srv.StopCalled(false), [0]), ForcedAt(Srv.ClosingSessions))
  {
    hide ForceAll, StopIntakeAll, Srv.Step, Srv.Stops, RunningServer, Forced, VisitorAt;
    ForceOfOne(cfg);
    StopBegins();
  }

  lemma ClosesOne(cfg: Config)
    requires cfg.Valid()
    ensures Leads(cfg, ForcedAt(Srv.ClosingSessions), ServerMoved(Srv.SessionsClosed, []), ForcedAt(Srv.StoppingDriver))
  {
  }

  lemma FinalOne(cfg: Config)
    ensures var s := ForcedAt(Srv.StoppingDriver);
            Finalize(s, cfg, 0) == RetiringAt(StreamPumpOnly, 0).(server := s.server)
  {
    hide Finalize;
    var s := ForcedAt(Srv.StoppingDriver);
    QuietFinalize(s, cfg, 0);
    assert map[0 := 0] - {0} == map[];
    assert map[0 := Forced()][0 := Final(Forced())] == map[0 := Retiring(StreamPumpOnly, 0)];
  }

  lemma FinalOfOne(cfg: Config)
    ensures var s := ForcedAt(Srv.StoppingDriver);
            FinalizeAll(s, cfg, [0]) == RetiringAt(StreamPumpOnly, 0).(server := s.server)
  {
    hide Finalize, FinalizeAll, RetiringAt;
    WalkOne(ForcedAt(Srv.StoppingDriver), cfg, 0);
    FinalOne(cfg);
  }

  lemma StopEnds()
    ensures Srv.Enabled(StoppingServer(Srv.StoppingDriver), Srv.DriverStopped(true))
    ensures Srv.Step(StoppingServer(Srv.StoppingDriver), Srv.DriverStopped(true)) == StoppingServer(Srv.StopSettled)
  {
  }

  lemma FinalizesOne(cfg: Config)
    requires cfg.Valid()
    ensures Leads(cfg, ForcedAt(Srv.StoppingDriver), ServerMoved(Srv.DriverStopped(true), [0]), RetiringAt(StreamPumpOnly, 0))
  {
    hide FinalizeAll, Srv.Step, Srv.Enabled, StoppingServer, Forced, Retiring, VisitorAt;
    FinalOfOne(cfg);
    StopEnds();
    assert map[0 := 0].Values == {0};
  }

  lemma EndsThePump(cfg: Config)
    requires cfg.Valid()
    ensures Leads(cfg, RetiringAt(StreamPumpOnly, 0), PumpEnded(0, StreamPump(Bidirectional)), RetiringAt({}, 0))
  {
    assert StreamPumpOnly - {StreamPump(Bidirectional)} == {};
    assert map[0 := Retiring(StreamPumpOnly, 0)][0 := Retiring({}, 0)] == map[0 := Retiring({}, 0)];
  }

  lemma SeesAdmissionSettled(cfg: Config)
    requires cfg.Valid()
    ensures Leads(cfg, RetiringAt({}, 0), Observed(0, AdmissionSettled), RetiringAt({}, 1))
  {
    assert map[0 := Retiring({}, 0)][0 := Retiring({}, 1)] == map[0 := Retiring({}, 1)];
  }

  lemma SeesSchedulerIdle(cfg: Config)
    requires cfg.Valid()
    ensures Leads(cfg, RetiringAt({}, 1), Observed(0, SchedulerIdle), RetiringAt({}, 2))
  {
    assert map[0 := Retiring({}, 1)][0 := Retiring({}, 2)] == map[0 := Retiring({}, 2)];
  }

  lemma SeesPumpsSettled(cfg: Config)
    requires cfg.Valid()
    ensures Leads(cfg, RetiringAt({}, 2), Observed(0, PumpsSettled), RetiringAt({}, 3))
  {
    assert map[0 := Retiring({}, 2)][0 := Retiring({}, 3)] == map[0 := Retiring({}, 3)];
  }

  lemma RetiresOne(cfg: Config)
    requires cfg.Valid()
    ensures Leads(cfg, RetiringAt({}, 3), Retired(0, 0), Retire(RetiringAt({}, 3), 0, 0))
    ensures Retire(RetiringAt({}, 3), 0, 0).outstanding == {} && Retire(RetiringAt({}, 3), 0, 0).activeStreams == 1
  {
    hide IP.Release;
  }

  /** In every configuration that allows a bidirectional stream there is a run, from the start, after which
      no session is outstanding and one stream is still counted: the server is stopped while the stream is
      open, and the session's own signal never aborts. */
  lemma AStreamCanOutliveItsSession(cfg: Config) returns (es: seq<Event>, states: seq<State>)
    requires cfg.Valid() && 1 <= cfg.maxStreams && 1 <= cfg.maxBidirectional
    ensures IsRun(cfg, states, es)
    ensures states[|es|].outstanding == {} && states[|es|].activeStreams == 1
  {
    hide Leads, Follow, IsRun, Retire;
    ForcesOne(cfg);
    ClosesOne(cfg);
    FinalizesOne(cfg);
    EndsThePump(cfg);
    SeesAdmissionSettled(cfg);
    SeesSchedulerIdle(cfg);
    SeesPumpsSettled(cfg);
    RetiresOne(cfg);
    es := Opens(cfg);
    es := Then(Initial(), cfg, es, Streaming(), ServerMoved(Srv.StopCalled(false), [0]), ForcedAt(Srv.ClosingSessions));
    es := Then(Initial(), cfg, es, ForcedAt(Srv.ClosingSessions), ServerMoved(Srv.SessionsClosed, []),
               ForcedAt(Srv.StoppingDriver));
    es := Then(Initial(), cfg, es, ForcedAt(Srv.StoppingDriver), ServerMoved(Srv.DriverStopped(true), [0]),
               RetiringAt(StreamPumpOnly, 0));
    es := Then(Initial(), cfg, es, RetiringAt(StreamPumpOnly, 0), PumpEnded(0, StreamPump(Bidirectional)), RetiringAt({}, 0));
    es := Then(Initial(), cfg, es, RetiringAt({}, 0), Observed(0, AdmissionSettled), RetiringAt({}, 1));
    es := Then(Initial(), cfg, es, RetiringAt({}, 1), Observed(0, SchedulerIdle), RetiringAt({}, 2));
    es := Then(Initial(), cfg, es, RetiringAt({}, 2), Observed(0, PumpsSettled), RetiringAt({}, 3));
    es := Then(Initial(), cfg, es, RetiringAt({}, 3), Retired(0, 0), Retire(RetiringAt({}, 3), 0, 0));
    states := FollowedIsARun(cfg, es);
  }

  /** What can be followed from the start is a run. */
  lemma {:induction false} FollowedIsARun(cfg: Config, es: seq<Event>) returns (states: seq<State>)
    requires cfg.Valid() && Follow(Initial(), cfg, es).Some?
    ensures IsRun(cfg, states, es) && states[|es|] == Follow(Initial(), cfg, es).value
  {
    hide Enabled, Step;
    states := [Initial()];
    var i := 0;
    while i < |es|
      invariant 0 <= i <= |es| && |states| == i + 1 && states[0] == Initial()
      invariant forall j :: 0 <= j < i ==> Enabled(states[j], cfg, es[j]) && states[j + 1] == Step(states[j], cfg, es[j])
      invariant Follow(states[i], cfg, es[i..]) == Follow(Initial(), cfg, es)
    {
      assert es[i..][1..] == es[i + 1..] && es[i..][0] == es[i];
      states := states + [Step(states[i], cfg, es[i])];
      i := i + 1;
    }
  }

  // ----- whose streams they are -----

  /** No session is finalized and no signal aborts. */
  ghost predicate SameEnds(s: State, t: State) {
    && t.sessions.Keys == s.sessions.Keys
    && forall h :: h in s.sessions ==>
         && t.sessions[h].finalized == s.sessions[h].finalized
         && t.sessions[h].signalAborted == s.sessions[h].signalAborted
  }

  lemma SameEndsTrans(s: State, t: State, u: State)
    requires SameEnds(s, t) && SameEnds(t, u)
    ensures SameEnds(s, u)
  {
    assert forall h :: h in s.sessions <==> h in t.sessions.Keys;
  }

  lemma PutSameEnds(s: State, h: Handle, m: Session)
    requires h in s.sessions && m.finalized == s.sessions[h].finalized && m.signalAborted == s.sessions[h].signalAborted
    ensures SameEnds(s, Put(s, h, m))
  {
  }

  lemma SubmitSameEnds(s: State, cfg: Config, h: Handle, bytes: nat)
    requires h in s.sessions
    ensures SameEnds(s, Submit(s, cfg, h, bytes))
  {
    hide Charge, Settle, Refuse, T.Core.Submit, T.Core.Offer;
  }

  lemma {:induction false} StopIntakeAllSameEnds(s: State, order: seq<Handle>)
    ensures SameEnds(s, StopIntakeAll(s, order))
    decreases |order|
  {
    hide SameEnds;
    if order == [] {
      ItselfSameEnds(s);
    } else {
      var t := s;
      if order[0] in s.sessions {
        PutSameEnds(s, order[0], IntakeStopped(s.sessions[order[0]]));
        t := StopIntake(s, order[0]);
        PoolSameEnds(Put(s, order[0], IntakeStopped(s.sessions[order[0]])), t);
        SameEndsTrans(s, Put(s, order[0], IntakeStopped(s.sessions[order[0]])), t);
      } else {
        ItselfSameEnds(s);
      }
      StopIntakeAllSameEnds(t, order[1..]);
      SameEndsTrans(s, t, StopIntakeAll(s, order));
    }
  }

  lemma ItselfSameEnds(s: State)
    ensures SameEnds(s, s)
  {
  }

  lemma PoolSameEnds(s: State, t: State)
    requires t.sessions == s.sessions
    ensures SameEnds(s, t)
  {
  }

  lemma ForceSameEnds(s: State, cfg: Config, h: Handle)
    requires h in s.sessions
    ensures SameEnds(s, Force(s, cfg, h))
  {
    hide AbandonSession, SettleAll, BytesOf;
  }

  lemma {:induction false} ForceAllSameEnds(s: State, cfg: Config, order: seq<Handle>)
    ensures SameEnds(s, ForceAll(s, cfg, order))
    decreases |order|
  {
    hide SameEnds, Force;
    if order == [] {
      ItselfSameEnds(s);
    } else {
      var t := s;
      if order[0] in s.sessions {
        ForceSameEnds(s, cfg, order[0]);
        t := Force(s, cfg, order[0]);
      } else {
        ItselfSameEnds(s);
      }
      ForceAllSameEnds(t, cfg, order[1..]);
      SameEndsTrans(s, t, ForceAll(s, cfg, order));
    }
  }

  /** A driver that has stopped: only what it walks is finalized, and no signal aborts. */
  ghost predicate OnlyThese(s: State, t: State, order: seq<Handle>) {
    && t.sessions.Keys == s.sessions.Keys
    && forall h :: h in s.sessions ==>
         && t.sessions[h].signalAborted == s.sessions[h].signalAborted
         && (h !in order ==> t.sessions[h].finalized == s.sessions[h].finalized)
  }

  lemma {:induction false} FinalizeAllOnlyThese(s: State, cfg: Config, order: seq<Handle>)
    ensures OnlyThese(s, FinalizeAll(s, cfg, order), order)
    decreases |order|
  {
    hide Finalize;
    if order != [] {
      var t := s;
      if order[0] in s.sessions {
        FinalizeOnlyOne(s, cfg, order[0]);
        t := Finalize(s, cfg, order[0]);
      }
      FinalizeAllOnlyThese(t, cfg, order[1..]);
      assert order == [order[0]] + order[1..];
      assert forall h :: h in s.sessions <==> h in t.sessions.Keys;
    }
  }

  lemma FinalizeOnlyOne(s: State, cfg: Config, h: Handle)
    requires h in s.sessions
    ensures OnlyThese(s, Finalize(s, cfg, h), [h])
  {
    hide AbandonSession, SettleAll, BytesOf;
  }

  /** A session that is finalized although its own signal has not aborted was so before, or a stopped
      driver has just finalized it. */
  ghost predicate ForcedOrBefore(s: State, t: State, e: Event) {
    forall h :: h in t.sessions && t.sessions[h].finalized && !t.sessions[h].signalAborted ==>
      && h in s.sessions && !s.sessions[h].signalAborted
      && (s.sessions[h].finalized || ForcedBy(e, h))
  }

  predicate ForcedBy(e: Event, h: Handle) {
    e.ServerMoved? && e.e.DriverStopped? && h in e.order
  }

  lemma ServerForces(s: State, cfg: Config, e: Srv.Event, order: seq<Handle>)
    requires Srv.Enabled(s.server, e)
    ensures ForcedOrBefore(s, MoveServer(s, cfg, e, order), ServerMoved(e, order))
  {
    hide StopIntakeAll, ForceAll, FinalizeAll, Srv.Step;
    match e {
      case StopCalled(_) =>
        StopIntakeAllSameEnds(s, order);
        ForceAllSameEnds(StopIntakeAll(s, order), cfg, order);
        SameEndsTrans(s, StopIntakeAll(s, order), ForceAll(StopIntakeAll(s, order), cfg, order));
      case DrainEnded => ForceAllSameEnds(s, cfg, order);
      case DriverStopped(_) => FinalizeAllOnlyThese(s, cfg, order);
      case _ =>
    }
  }

  lemma AcceptForces(s: State, cfg: Config, h: Handle, o: Offer)
    requires h !in s.sessions
    ensures ForcedOrBefore(s, Accept(s, cfg, h, o), Offered(h, o))
  {
    hide IP.Acquire, IP.Release, Bounced, Charge, Enter, Finalize;
    if Judge(s, cfg, o).Admitted? && o.aborted {
      var t := s.(ip := IP.Acquire(s.ip, cfg.ip, o.ip, o.clock).0, ids := s.ids[o.id := h],
                  outstanding := s.outstanding + {h}, sessions := s.sessions[h := NewSession(o)], pool := Bounced(s.pool, h));
      assert Accept(s, cfg, h, o) == Finalize(t, cfg, h);
      FinalizeOnlyOne(t, cfg, h);
      assert forall k :: k in Finalize(t, cfg, h).sessions.Keys <==> k in t.sessions;
    }
  }

  lemma AbortForces(s: State, cfg: Config, h: Handle)
    requires h in s.sessions
    ensures ForcedOrBefore(s, AbortSignal(s, cfg, h), SignalAborted(h))
  {
    hide Finalize, ReleaseAll;
    AbortIsMarked(s, cfg, h);
    FinalizeOnlyOne(Marked(s, h), cfg, h);
    ReleaseSameEnds(Finalize(Marked(s, h), cfg, h), h);
  }

  lemma ReleaseSameEnds(s: State, h: Handle)
    requires h in s.sessions
    ensures SameEnds(s, ReleaseAll(s, h))
  {
    hide StreamsOf;
  }

  lemma ReadDatagramSameEnds(s: State, cfg: Config, h: Handle, arrival: Arrival)
    requires h in s.sessions && 1 <= cfg.queueSize && |s.sessions[h].feed.queue| <= cfg.queueSize
    ensures SameEnds(s, ReadDatagram(s, cfg, h, arrival))
  {
    hide F.Offered, F.Judge, F.OfferedBytes;
  }

  lemma ResumeDrainSameEnds(s: State, cfg: Config, h: Handle)
    requires h in s.sessions
    ensures SameEnds(s, ResumeDrain(s, cfg, h))
  {
    hide Submit, SameEnds;
    var m := s.sessions[h];
    if m.feed.queue != [] {
      var t := Put(s, h, m.(feed := F.Taken(m.feed)));
      PutSameEnds(s, h, m.(feed := F.Taken(m.feed)));
      SubmitSameEnds(t, cfg, h, m.feed.queue[0].size);
      SameEndsTrans(s, t, Submit(t, cfg, h, m.feed.queue[0].size));
    }
    PutSameEnds(s, h, EndDrain(m));
    PutSameEnds(s, h, DrainLoop(m, cfg));
  }

  lemma ReadStreamSameEnds(s: State, cfg: Config, h: Handle, kind: StreamKind, k: StreamId, aborted: bool)
    requires h in s.sessions
    ensures SameEnds(s, ReadStream(s, cfg, h, kind, k, aborted))
  {
    hide Submit, SameEnds;
    var m := s.sessions[h];
    var t := if aborted then s else Track(s, h, kind, k);
    PutSameEnds(s, h, m.(pumps := m.pumps - {StreamPump(kind)}));
    ItselfSameEnds(s);
    TrackSameEnds(s, h, kind, k);
    SubmitSameEnds(t, cfg, h, 0);
    SameEndsTrans(s, t, Submit(t, cfg, h, 0));
  }

  lemma TrackSameEnds(s: State, h: Handle, kind: StreamKind, k: StreamId)
    requires h in s.sessions
    ensures h in Track(s, h, kind, k).sessions && SameEnds(s, Track(s, h, kind, k))
  {
  }

  /** The events of work, and those that leave the records alone. */
  predicate OfWork(e: Event) {
    e.TaskBegan? || e.CallReturned? || e.TaskSettled? || e.AdmissionWorkSettled? || e.Retired? || e.StreamEnded?
  }

  lemma WorkSameEnds(s: State, cfg: Config, e: Event)
    requires cfg.Valid() && Enabled(s, cfg, e) && OfWork(e)
    ensures SameEnds(s, Step(s, cfg, e))
  {
    hide Enter, Leave, Settle, Start, IP.Release;
  }

  /** The other events that end nothing. */
  lemma RecordSameEnds(s: State, cfg: Config, e: Event)
    requires cfg.Valid() && Enabled(s, cfg, e) && !OfWork(e) && !e.Offered? && !e.SignalAborted? && !e.ServerMoved?
    ensures SameEnds(s, Step(s, cfg, e))
  {
    hide AbandonSession, ReadDatagram, ResumeDrain, ReadStream;
    match e {
      case DatagramRead(h, arrival) => ReadDatagramSameEnds(s, cfg, h, arrival);
      case DrainResumed(h) => ResumeDrainSameEnds(s, cfg, h);
      case StreamRead(h, kind, k, aborted) => ReadStreamSameEnds(s, cfg, h, kind, k, aborted);
      case _ =>
    }
  }

  lemma SameEndsForces(s: State, t: State, e: Event)
    requires SameEnds(s, t)
    ensures ForcedOrBefore(s, t, e)
  {
    assert forall h :: h in t.sessions.Keys <==> h in s.sessions;
  }

  lemma StepForces(s: State, cfg: Config, e: Event)
    requires cfg.Valid() && Enabled(s, cfg, e)
    ensures ForcedOrBefore(s, Step(s, cfg, e), e)
  {
    if e.Offered? || e.SignalAborted? || e.ServerMoved? {
      hide Accept, AbortSignal, MoveServer, ForcedOrBefore;
      match e {
        case Offered(h, offer) => AcceptForces(s, cfg, h, offer);
        case SignalAborted(h) => AbortForces(s, cfg, h);
        case ServerMoved(move, order) => ServerForces(s, cfg, move, order);
      }
    } else {
      hide Step, Enabled, SameEnds, ForcedOrBefore;
      if OfWork(e) {
        WorkSameEnds(s, cfg, e);
      } else {
        RecordSameEnds(s, cfg, e);
      }
      SameEndsForces(s, Step(s, cfg, e), e);
    }
  }

  /** In every run, a session that is finalized although its own signal has not aborted was finalized by a
      driver that stopped, while it was still registered. */
  lemma {:induction false} OnlyAStoppedDriverForces(cfg: Config, states: seq<State>, events: seq<Event>, k: nat, h: Handle)
    requires IsRun(cfg, states, events) && k < |states| && h in states[k].sessions
    requires states[k].sessions[h].finalized && !states[k].sessions[h].signalAborted
    ensures exists j :: 0 <= j < k && j < |events| && ForcedBy(events[j], h)
  {
    hide IsRun, Step, Enabled;
    RunLength(cfg, states, events);
    if k == 0 {
      RunStartsEmpty(cfg, states, events);
    } else {
      RunEnables(cfg, states, events, k - 1);
      StepForces(states[k - 1], cfg, events[k - 1]);
      if !ForcedBy(events[k - 1], h) {
        OnlyAStoppedDriverForces(cfg, states, events, k - 1, h);
      }
    }
  }

  lemma RunStartsEmpty(cfg: Config, states: seq<State>, events: seq<Event>)
    requires IsRun(cfg, states, events)
    ensures states[0] == Initial()
  {
    hide Step, Enabled;
  }

  /** So in every run, once no session is outstanding, the stream counter is zero if and only if no session
      that a stopped driver finalized, and whose own signal has not aborted since, was left with a stream. */
  lemma StreamsOutliveOnlyAForcedEnd(cfg: Config, states: seq<State>, events: seq<Event>, k: nat)
    requires IsRun(cfg, states, events) && k < |states| && states[k].outstanding == {}
    ensures states[k].activeStreams == 0 <==>
            forall h, j :: 0 <= j < k && j < |events| && ForcedBy(events[j], h) && h in states[k].sessions
                           && !states[k].sessions[h].signalAborted ==>
              states[k].sessions[h].bidirectional == 0 && states[k].sessions[h].unidirectional == 0
    ensures (forall j :: 0 <= j < k && j < |events| && events[j].ServerMoved? ==> !events[j].e.DriverStopped?) ==>
              states[k].activeStreams == 0
  {
    hide IsRun;
    StreamsAreGoneIff(cfg, states, events, k);
    forall h | h in states[k].sessions && !states[k].sessions[h].signalAborted
      ensures exists j :: 0 <= j < k && j < |events| && ForcedBy(events[j], h)
    {
      EveryRunIsAccounted(cfg, states, events, k);
      NobodyIsLeftOpen(states[k], cfg, h);
      OnlyAStoppedDriverForces(cfg, states, events, k, h);
    }
  }

  lemma NobodyIsLeftOpen(s: State, cfg: Config, h: Handle)
    requires Accounted(s, cfg) && h in s.sessions && h !in s.outstanding
    ensures s.sessions[h].finalized
  {
    hide Accounted, SessionOk;
    SessionIsOk(s, cfg, h);
  }
}
