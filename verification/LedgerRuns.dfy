/** Admission and the server's own segments, and then: what every run of the runtime keeps. */
module LedgerRuns {
  import opened Wrappers
  import opened Sums
  import opened Lifecycles
  import opened Pools
  import opened Ledgers
  import opened LedgerInvariant
  import opened LedgerSteps
  import opened LedgerEnds
  import B = Budgets
  import IP = Slots
  import Srv = Servers
  import T = Tasks

  // ----- the server -----

  lemma SwapServer(s: State, cfg: Config, server: Srv.Server)
    requires Accounted(s, cfg) && ServerOk(server, s.ids, s.outstanding, s.sessions)
    ensures Accounted(s.(server := server), cfg)
  {
    hide Pools.Inv, Placed, NoAbortedWaiters, Charged, AllOk, Registered, IpCounted, StreamsCounted, ServerOk;
  }

  lemma ServerIsOk(s: State, cfg: Config)
    requires Accounted(s, cfg)
    ensures ServerOk(s.server, s.ids, s.outstanding, s.sessions)
    ensures Registered(s.ids, s.outstanding, s.sessions, cfg.maxSessions)
    ensures s.outstanding <= s.sessions.Keys
  {
    hide Pools.Inv, NoAbortedWaiters, Charged, AllOk, Registered, IpCounted, StreamsCounted, ServerOk, SlotOk;
  }

  lemma StopMovesOn(server: Srv.Server, graceful: bool)
    requires Srv.Inv(server) && Srv.Stops(server)
    ensures Srv.Step(server, Srv.StopCalled(graceful)).state in {Draining, Stopping}
  {
  }

  /** Segments that touch no session never leave RUNNING, and never reach STOPPED or STARTING from elsewhere. */
  lemma QuietMoves(server: Srv.Server, e: Srv.Event)
    requires Srv.Inv(server) && Srv.Enabled(server, e)
    requires !e.DriverStopped? && (e.StopCalled? ==> !Srv.Stops(server))
    ensures var state := Srv.Step(server, e).state;
            && (state != ServerState.Running ==> server.state != ServerState.Running)
            && (state in {Stopped, Starting} ==> server.state in {Stopped, Starting})
  {
  }

  lemma QuietServerOk(server: Srv.Server, e: Srv.Event, ids: map<SessionId, Handle>, outstanding: set<Handle>,
                      sessions: map<Handle, Session>)
    requires ServerOk(server, ids, outstanding, sessions) && Srv.Enabled(server, e)
    requires !e.DriverStopped? && (e.StopCalled? ==> !Srv.Stops(server))
    ensures ServerOk(Srv.Step(server, e), ids, outstanding, sessions)
  {
    hide Srv.Inv, Srv.Step;
    Srv.StepKeepsInv(server, e);
    QuietMoves(server, e);
  }

  lemma StoppedServerOk(server: Srv.Server, ids: map<SessionId, Handle>, outstanding: set<Handle>,
                        sessions: map<Handle, Session>)
    requires Srv.Inv(server)
    requires forall h :: h in outstanding && h in sessions ==> sessions[h].intakeAborted
    requires server.state in {Stopped, Starting} ==> ids == map[]
    ensures ServerOk(server, ids, outstanding, sessions)
  {
    hide Srv.Inv;
  }

  lemma StopCallKeepsAccounts(s: State, cfg: Config, graceful: bool, order: seq<Handle>)
    requires Accounted(s, cfg) && Srv.Stops(s.server)
    requires forall h :: h in order <==> h in s.outstanding
    ensures Accounted(MoveServer(s, cfg, Srv.StopCalled(graceful), order), cfg)
  {
    hide Accounted, Srv.Inv, Srv.DoStopCalled, Closing, IntakeStoppedAt, Registered;
    ServerIsOk(s, cfg);
    var e := Srv.StopCalled(graceful);
    var server := Srv.Step(s.server, e);
    Srv.StepKeepsInv(s.server, e);
    StopMovesOn(s.server, graceful);
    StopIntakeAllEffect(s, cfg, order);
    var t := StopIntakeAll(s, order);
    ClosingSame(s, t);
    var u := if server.stop == Some(Srv.DrainingHandlers) then t else ForceAll(t, cfg, order);
    assert Accounted(u, cfg) && Closing(t, u) by {
      ClosingItself(t);
      forall h | h in order ensures h in t.sessions {
        ClosingKeeps(s, t, h);
      }
      ForceAllEffect(t, cfg, order);
    }
    ClosingSame(t, u);
    forall h | h in u.outstanding && h in u.sessions
      ensures u.sessions[h].intakeAborted
    {
      assert h in order;
      ClosingKeeps(t, u, h);
      StoppedAt(u, h);
    }
    StoppedServerOk(server, u.ids, u.outstanding, u.sessions);
    SwapServer(u, cfg, server);
  }

  lemma StoppedAt(s: State, h: Handle)
    requires IntakeStoppedAt(s, h) && h in s.sessions
    ensures s.sessions[h].intakeAborted
  {
  }

  lemma DrainEndKeepsAccounts(s: State, cfg: Config, order: seq<Handle>)
    requires Accounted(s, cfg) && Srv.Enabled(s.server, Srv.DrainEnded)
    requires forall h :: h in order <==> h in s.outstanding
    ensures Accounted(MoveServer(s, cfg, Srv.DrainEnded, order), cfg)
  {
    hide Accounted, Closing, IntakeStoppedAt, Registered, ServerOk;
    ServerIsOk(s, cfg);
    NotRunningIsStopped(s, cfg);
    ForceAllEffect(s, cfg, order);
    var t := ForceAll(s, cfg, order);
    ClosingSame(s, t);
    ServerIsOk(t, cfg);
    QuietServerOk(t.server, Srv.DrainEnded, t.ids, t.outstanding, t.sessions);
    SwapServer(t, cfg, Srv.Step(s.server, Srv.DrainEnded));
  }

  lemma NotRunningIsStopped(s: State, cfg: Config)
    requires Accounted(s, cfg) && s.server.stop == Some(Srv.DrainingHandlers)
    ensures forall h :: h in s.outstanding && h in s.sessions ==> IntakeStoppedAt(s, h)
  {
    hide Pools.Inv, Placed, NoAbortedWaiters, Charged, AllOk, Registered, IpCounted, StreamsCounted;
  }

  lemma DrainingIsForceable(s: State, cfg: Config)
    requires Accounted(s, cfg) && s.server.stop == Some(Srv.DrainingHandlers)
    ensures forall h :: h in s.outstanding ==> Forceable(s, h)
  {
    hide Accounted;
    NotRunningIsStopped(s, cfg);
    OutstandingIsKnown(s, cfg);
  }

  lemma DriverStopKeepsAccounts(s: State, cfg: Config, ok: bool, order: seq<Handle>)
    requires Accounted(s, cfg) && Srv.Enabled(s.server, Srv.DriverStopped(ok))
    requires forall h :: h in order <==> h in s.ids.Values
    ensures Accounted(MoveServer(s, cfg, Srv.DriverStopped(ok), order), cfg)
  {
    hide Accounted, Closing, FinalizedAt, Srv.Inv, ServerOk;
    ServerIsOk(s, cfg);
    FinalizeAllEffect(s, cfg, order);
    var t := FinalizeAll(s, cfg, order);
    ClosingSame(s, t);
    ServerIsOk(t, cfg);
    assert t.ids == map[] by {
      NoIdsLeft(s, t, cfg, order);
    }
    StoppingIsStopped(t, cfg);
    ServerInv(t);
    Srv.StepKeepsInv(s.server, Srv.DriverStopped(ok));
    StoppedServerOk(Srv.Step(s.server, Srv.DriverStopped(ok)), t.ids, t.outstanding, t.sessions);
    SwapServer(t, cfg, Srv.Step(s.server, Srv.DriverStopped(ok)));
  }

  lemma ServerInv(s: State)
    requires ServerOk(s.server, s.ids, s.outstanding, s.sessions)
    ensures Srv.Inv(s.server)
  {
  }

  lemma StoppingIsStopped(s: State, cfg: Config)
    requires Accounted(s, cfg) && s.server.stop == Some(Srv.StoppingDriver)
    ensures forall h :: h in s.outstanding && h in s.sessions ==> s.sessions[h].intakeAborted
  {
    hide Pools.Inv, Placed, NoAbortedWaiters, Charged, AllOk, Registered, IpCounted, StreamsCounted;
  }

  /** Finalizing everything registered leaves nothing registered. */
  lemma NoIdsLeft(s: State, t: State, cfg: Config, order: seq<Handle>)
    requires Closing(s, t) && Registered(t.ids, t.outstanding, t.sessions, cfg.maxSessions)
    requires forall h :: h in order <==> h in s.ids.Values
    requires forall h :: h in order ==> FinalizedAt(t, h)
    ensures t.ids == map[]
  {
    forall id | id in s.ids
      ensures id !in t.ids
    {
      assert s.ids[id] in s.ids.Values;
      FinalIsUnregistered(s, t, cfg, id);
    }
  }

  lemma FinalIsUnregistered(s: State, t: State, cfg: Config, id: SessionId)
    requires Closing(s, t) && Registered(t.ids, t.outstanding, t.sessions, cfg.maxSessions)
    requires id in s.ids && FinalizedAt(t, s.ids[id])
    ensures id !in t.ids
  {
  }

  lemma MoveServerKeepsAccounts(s: State, cfg: Config, e: Srv.Event, order: seq<Handle>)
    requires Accounted(s, cfg) && Srv.Enabled(s.server, e) && Walks(s, e, order)
    ensures Accounted(MoveServer(s, cfg, e, order), cfg)
  {
    hide Accounted, ServerOk, Srv.Inv, Registered, Srv.Step;
    if e.StopCalled? && Srv.Stops(s.server) {
      StopCallKeepsAccounts(s, cfg, e.graceful, order);
    } else if e.DrainEnded? {
      DrainEndKeepsAccounts(s, cfg, order);
    } else if e.DriverStopped? {
      DriverStopKeepsAccounts(s, cfg, e.ok, order);
    } else {
      ServerIsOk(s, cfg);
      QuietServerOk(s.server, e, s.ids, s.outstanding, s.sessions);
      SwapServer(s, cfg, Srv.Step(s.server, e));
    }
  }

  // ----- admission -----

  lemma IpMoves(s: State, cfg: Config, table: IP.Table)
    requires Accounted(s, cfg) && IpCounted(table, s.outstanding, s.sessions, cfg.ip)
    ensures Accounted(s.(ip := table), cfg)
  {
    hide Pools.Inv, Placed, NoAbortedWaiters, Charged, AllOk, Registered, IpCounted, StreamsCounted, ServerOk;
  }

  lemma IpIsCounted(s: State, cfg: Config)
    requires Accounted(s, cfg)
    ensures IpCounted(s.ip, s.outstanding, s.sessions, cfg.ip)
  {
    hide Pools.Inv, Placed, NoAbortedWaiters, Charged, AllOk, Registered, IpCounted, StreamsCounted, ServerOk;
  }

  lemma AskedIp(table: IP.Table, outstanding: set<Handle>, sessions: map<Handle, Session>, limits: IP.Limits,
                ip: IP.Address, clock: IP.Readings, freedAt: int)
    requires limits.Valid() && IpCounted(table, outstanding, sessions, limits)
    ensures var (t, ok) := IP.Acquire(table, limits, ip, clock);
            && (!ok ==> IpCounted(t, outstanding, sessions, limits))
            && (ok ==> IpCounted(IP.Release(t, ip, freedAt), outstanding, sessions, limits))
  {
    hide IP.Acquire, IP.Release, IP.Active, IP.Bounded, FromIp;
    var (t, ok) := IP.Acquire(table, limits, ip, clock);
    IP.AcquireCounts(table, limits, ip, clock, ip);
    if ok {
      IP.ReleaseCounts(t, limits, ip, freedAt, ip);
    }
    forall a
      ensures !ok ==> IP.Active(t, a) == |FromIp(outstanding, sessions, a)|
      ensures ok ==> IP.Active(IP.Release(t, ip, freedAt), a) == |FromIp(outstanding, sessions, a)|
    {
      IP.AcquireCounts(table, limits, ip, clock, a);
      if ok {
        IP.ReleaseCounts(t, limits, ip, freedAt, a);
      }
    }
  }

  /** The record of a session whose signal had not aborted when it was offered. */
  function Fresh(o: Offer): Session {
    NewSession(o).(signalAborted := false)
  }

  function Added(s: State, cfg: Config, h: Handle, o: Offer): State {
    Put(s.(ip := IP.Acquire(s.ip, cfg.ip, o.ip, o.clock).0,
           ids := s.ids[o.id := h],
           outstanding := s.outstanding + {h}), h, Fresh(o))
  }

  lemma AddedIp(s: State, cfg: Config, h: Handle, o: Offer)
    requires cfg.Valid() && IpCounted(s.ip, s.outstanding, s.sessions, cfg.ip)
    requires h !in s.sessions && s.outstanding <= s.sessions.Keys
    requires IP.Acquire(s.ip, cfg.ip, o.ip, o.clock).1
    ensures IpCounted(Added(s, cfg, h, o).ip, s.outstanding + {h}, s.sessions[h := Fresh(o)], cfg.ip)
  {
    hide IP.Acquire, IP.Active, IP.Bounded;
    var table := IP.Acquire(s.ip, cfg.ip, o.ip, o.clock).0;
    hide FromIp, Fresh;
    forall a
      ensures IP.Active(table, a) == |FromIp(s.outstanding + {h}, s.sessions[h := Fresh(o)], a)|
    {
      IP.AcquireCounts(s.ip, cfg.ip, o.ip, o.clock, a);
      AddedFrom(s.outstanding, s.sessions, h, o, a);
    }
    IP.AcquireCounts(s.ip, cfg.ip, o.ip, o.clock, o.ip);
  }

  lemma AddedFrom(outstanding: set<Handle>, sessions: map<Handle, Session>, h: Handle, o: Offer, a: IP.Address)
    requires h !in sessions && outstanding <= sessions.Keys
    ensures |FromIp(outstanding + {h}, sessions[h := Fresh(o)], a)|
            == |FromIp(outstanding, sessions, a)| + if a == o.ip then 1 else 0
  {
    var before := FromIp(outstanding, sessions, a);
    assert h !in outstanding;
    assert FromIp(outstanding + {h}, sessions[h := Fresh(o)], a) == if a == o.ip then before + {h} else before;
  }

  lemma FreshIsSound(o: Offer, cfg: Config)
    ensures SessionOk(Fresh(o), cfg) && FeedWeight(Fresh(o)) == 0
  {
  }

  lemma AddedPlaced(work: map<WorkId, Work>, sessions: map<Handle, Session>, outstanding: set<Handle>,
                    limits: T.Limits, h: Handle, m: Session)
    requires Placed(work, sessions, outstanding, limits) && h !in sessions
    requires m.tasks == T.Core(0, [], true) && m.admission == None
    ensures Placed(work, sessions[h := m], outstanding + {h}, limits)
  {
    forall w | w in work ensures work[w].session != h {
      assert work[w].session in sessions.Keys;
    }
    SumZero(work, ActiveIn(h));
    assert SlotOk(h, m, work, limits);
    hide SlotOk;
  }

  lemma AddedWaiters(work: map<WorkId, Work>, sessions: map<Handle, Session>, h: Handle, m: Session)
    requires NoAbortedWaiters(work, sessions) && h !in sessions
    ensures NoAbortedWaiters(work, sessions[h := m])
  {
  }

  lemma AddedRegistered(ids: map<SessionId, Handle>, outstanding: set<Handle>, sessions: map<Handle, Session>,
                        maxSessions: nat, h: Handle, m: Session)
    requires Registered(ids, outstanding, sessions, maxSessions) && h !in sessions && outstanding <= sessions.Keys
    requires |outstanding| < maxSessions && m.id !in ids && !m.finalized
    ensures Registered(ids[m.id := h], outstanding + {h}, sessions[h := m], maxSessions)
  {
    assert h !in outstanding;
    assert |outstanding + {h}| == |outstanding| + 1;
  }

  lemma AddedStreams(streams: map<StreamId, Stream>, active: int, sessions: map<Handle, Session>, cfg: Config,
                     h: Handle, m: Session)
    requires StreamsCounted(streams, active, sessions, cfg) && h !in sessions
    requires m.bidirectional == 0 && m.unidirectional == 0
    ensures StreamsCounted(streams, active, sessions[h := m], cfg)
    ensures forall k :: k in streams ==> streams[k].session != h
  {
    forall kind: StreamKind
      ensures m.Streams(kind) == |StreamsOf(streams, h, kind)| <= cfg.MaxStreams(kind)
    {
      assert StreamsOf(streams, h, kind) == {};
    }
    hide StreamsOf, Session.Streams, Config.MaxStreams;
  }

  lemma AddedServerOk(server: Srv.Server, ids: map<SessionId, Handle>, outstanding: set<Handle>,
                      sessions: map<Handle, Session>, h: Handle, m: Session)
    requires ServerOk(server, ids, outstanding, sessions) && server.state == ServerState.Running
    ensures ServerOk(server, ids[m.id := h], outstanding + {h}, sessions[h := m])
  {
    hide Srv.Inv;
  }

  lemma AddedAllOk(sessions: map<Handle, Session>, outstanding: set<Handle>, cfg: Config, h: Handle, m: Session)
    requires AllOk(sessions, outstanding, cfg) && h !in sessions && SessionOk(m, cfg)
    ensures AllOk(sessions[h := m], outstanding + {h}, cfg)
  {
    hide SessionOk, Gone;
  }

  lemma AddKeepsAccounts(s: State, cfg: Config, h: Handle, o: Offer)
    requires cfg.Valid() && Accounted(s, cfg) && h !in s.sessions && Judge(s, cfg, o).Admitted?
    ensures Accounted(Added(s, cfg, h, o), cfg)
    ensures forall k :: k in s.streams ==> s.streams[k].session != h
  {
    hide Pools.Inv, NoAbortedWaiters, Charged, AllOk, Registered, IpCounted, StreamsCounted, ServerOk;
    hide SessionOk, Gone, FeedWeight, SlotOk, IP.Acquire;
    var m := Fresh(o);
    FreshIsSound(o, cfg);
    AddedIp(s, cfg, h, o);
    AddedPlaced(s.pool.work, s.sessions, s.outstanding, cfg.tasks, h, m);
    hide Placed;
    AddedWaiters(s.pool.work, s.sessions, h, m);
    AddedCharged(s, h, m);
    AddedAllOk(s.sessions, s.outstanding, cfg, h, m);
    AddedRegistered(s.ids, s.outstanding, s.sessions, cfg.maxSessions, h, m);
    AddedStreams(s.streams, s.activeStreams, s.sessions, cfg, h, m);
    AddedServerOk(s.server, s.ids, s.outstanding, s.sessions, h, m);
  }

  lemma AddedCharged(s: State, h: Handle, m: Session)
    requires Charged(s.queuedBytes, s.pool.work, s.sessions) && h !in s.sessions && FeedWeight(m) == 0
    ensures Charged(s.queuedBytes, s.pool.work, s.sessions[h := m])
  {
    hide FeedWeight;
    SumPut(s.sessions, FeedWeight, h, m);
  }

  lemma AdmittedPool(p: Pool, limits: B.Limits, h: Handle)
    requires Pools.Inv(p, limits) && p.budget.CanReserve(limits)
    ensures var charged := Charge(p, h, Admission, 0, Started); var p' := Enter(charged, limits, p.next, false);
            && Pools.Inv(p', limits)
            && SameCharges(charged.work, p'.work)
            && OthersKept(p.work, p'.work, h)
            && Sum(p'.work, ByteWeight) == Sum(p.work, ByteWeight)
            && Sum(p'.work, ActiveIn(h)) == Sum(p.work, ActiveIn(h))
            && (forall w :: w in p.work ==> w in p'.work && p'.work[w] == p.work[w])
            && (forall w :: w in p'.work ==> w in p.work || w == p.next)
            && p.next in p'.work && p'.work[p.next].session == h && p'.work[p.next].kind.Admission?
            && p.next !in p.work && !p'.work[p.next].phase.Queued?
  {
    hide OthersKept, Pools.Counted, Entered;
    var charged := Charge(p, h, Admission, 0, Started);
    assert p.next !in p.work;
    ChargeKeepsInv(p, limits, h, Admission, 0, Started);
    ChargeEffect(p, h, Admission, 0, Started);
    EnterKeepsInv(charged, limits, p.next, false);
    var p' := Enter(charged, limits, p.next, false);
    hide Pools.Inv;
    SameChargesKeepsOthers(charged.work, p'.work, h);
    OthersKeptTrans(p.work, charged.work, p'.work, h);
  }

  lemma AdmittedSlot(h: Handle, m: Session, a: map<WorkId, Work>, b: map<WorkId, Work>, cfg: Config, w: WorkId)
    requires SlotOk(h, m, a, cfg.tasks) && m.admission == None
    requires forall x :: x in a ==> x in b && b[x] == a[x]
    requires forall x :: x in b ==> x in a || x == w
    requires w in b && b[w].session == h && b[w].kind.Admission? && w !in a && !b[w].phase.Queued?
    requires Sum(b, ActiveIn(h)) == Sum(a, ActiveIn(h))
    ensures SlotOk(h, m.(admission := Some(w)), b, cfg.tasks)
  {
    AdmittedWork(h, m, a, b, cfg, w);
    hide QueuedIn, AdmissionOf;
  }

  lemma AdmittedWork(h: Handle, m: Session, a: map<WorkId, Work>, b: map<WorkId, Work>, cfg: Config, w: WorkId)
    requires SlotOk(h, m, a, cfg.tasks) && m.admission == None
    requires forall x :: x in a ==> x in b && b[x] == a[x]
    requires forall x :: x in b ==> x in a || x == w
    requires w in b && b[w].session == h && b[w].kind.Admission? && w !in a && !b[w].phase.Queued?
    ensures forall x: WorkId :: QueuedIn(b, x, h) <==> QueuedIn(a, x, h)
    ensures forall x: WorkId :: AdmissionOf(b, x, h) <==> x == w
  {
    assert forall x: WorkId :: !AdmissionOf(a, x, h);
    assert forall x: WorkId :: x in a ==> (AdmissionOf(b, x, h) <==> AdmissionOf(a, x, h));
  }

  lemma AdmittedIsCalm(a: map<WorkId, Work>, b: map<WorkId, Work>, sessions: map<Handle, Session>, h: Handle, w: WorkId)
    requires NoAbortedWaiters(a, sessions) && h in sessions && !sessions[h].ContextAborted()
    requires forall x :: x in b ==> (x in a && b[x] == a[x]) || (x == w && b[x].session == h)
    ensures NoAbortedWaiters(b, sessions)
  {
  }

  lemma AdmitKeepsAccounts(s: State, cfg: Config, h: Handle, o: Offer)
    requires Accounted(s, cfg) && h in s.sessions && h in s.outstanding && s.sessions[h] == Fresh(o)
    requires s.pool.budget.CanReserve(cfg.handlers)
    ensures var p := Enter(Charge(s.pool, h, Admission, 0, Started), cfg.handlers, s.pool.next, false);
            Accounted(Put(s, h, Fresh(o).(admission := Some(s.pool.next))).(pool := p), cfg)
  {
    hide Accounted, Pools.Inv, SlotOk, SessionOk, Gone, FeedWeight, OthersKept, NoAbortedWaiters, Charge, Enter, SameCharges;
    var m := Fresh(o).(admission := Some(s.pool.next));
    var p := Enter(Charge(s.pool, h, Admission, 0, Started), cfg.handlers, s.pool.next, false);
    PoolIsOk(s, cfg);
    SessionIsOk(s, cfg, h);
    AdmissionIsWork(s, cfg, h);
    AdmittedPool(s.pool, cfg.handlers, h);
    AdmittedSlot(h, Fresh(o), s.pool.work, p.work, cfg, s.pool.next);
    WaitersStayCalm(s, cfg, h, m);
    AdmittedIsCalm(s.pool.work, p.work, s.sessions[h := m], h, s.pool.next);
    FreshIsSound(o, cfg);
    AdmissionIsSound(o, cfg, s.pool.next);
    BytesAreCharged(s, cfg);
    WorkMoveKeepsAccounts(s, cfg, h, m, p, s.queuedBytes);
  }

  lemma AdmissionIsSound(o: Offer, cfg: Config, w: WorkId)
    ensures var m := Fresh(o).(admission := Some(w));
            SessionOk(m, cfg) && FeedWeight(m) == 0 && Steady(Fresh(o), m)
  {
  }

  lemma AcceptKeepsAccounts(s: State, cfg: Config, h: Handle, o: Offer)
    requires cfg.Valid() && Accounted(s, cfg) && h !in s.sessions
    ensures Accounted(Accept(s, cfg, h, o), cfg)
  {
    hide Accounted, IpCounted, IP.Acquire, IP.Release, Pools.Inv, Charge, Enter, Settle, Finalize;
    IpIsCounted(s, cfg);
    AskedIp(s.ip, s.outstanding, s.sessions, cfg.ip, o.ip, o.clock, o.freedAt);
    var table := IP.Acquire(s.ip, cfg.ip, o.ip, o.clock).0;
    match Judge(s, cfg, o) {
      case IpLimit => IpMoves(s, cfg, table);
      case HandlerLimit => IpMoves(s, cfg, IP.Release(table, o.ip, o.freedAt));
      case ReaderSetup =>
        BouncedIsOk(s, cfg, h, Admission, 0);
        BounceKeepsAccounts(s, cfg, h);
        IpIsCounted(s, cfg);
        IpMoves(s.(pool := Bounced(s.pool, h)), cfg, IP.Release(table, o.ip, o.freedAt));
      case Admitted =>
        AddKeepsAccounts(s, cfg, h, o);
        if o.aborted {
          AcceptAbortedKeepsAccounts(s, cfg, h, o);
        } else {
          AdmitKeepsAccounts(Added(s, cfg, h, o), cfg, h, o);
          AcceptIsAdmit(s, cfg, h, o);
        }
      case _ =>
    }
  }

  lemma BounceKeepsAccounts(s: State, cfg: Config, h: Handle)
    requires Accounted(s, cfg) && s.pool.budget.CanReserve(cfg.handlers)
    ensures Accounted(s.(pool := Bounced(s.pool, h)), cfg)
  {
    hide Accounted, Pools.Inv, Charge, Settle, NoAbortedWaiters;
    PoolIsOk(s, cfg);
    BouncedIsOk(s, cfg, h, Admission, 0);
    PoolMoveKeepsAccounts(s, cfg, Bounced(s.pool, h));
  }

  lemma AcceptIsAdmit(s: State, cfg: Config, h: Handle, o: Offer)
    requires Judge(s, cfg, o).Admitted? && !o.aborted
    ensures var p := Enter(Charge(s.pool, h, Admission, 0, Started), cfg.handlers, s.pool.next, false);
            Accept(s, cfg, h, o) ==
            Put(Added(s, cfg, h, o), h, Fresh(o).(admission := Some(s.pool.next))).(pool := p)
  {
    hide IP.Acquire, Charge, Enter;
    assert s.sessions[h := Fresh(o)][h := Fresh(o).(admission := Some(s.pool.next))]
        == s.sessions[h := NewSession(o).(admission := Some(s.pool.next))];
  }

  lemma AcceptAbortedKeepsAccounts(s: State, cfg: Config, h: Handle, o: Offer)
    requires cfg.Valid() && Accounted(s, cfg) && h !in s.sessions && Judge(s, cfg, o).Admitted? && o.aborted
    ensures Accounted(Accept(s, cfg, h, o), cfg)
  {
    hide Accounted, IP.Acquire, Bounced, Finalize;
    AddKeepsAccounts(s, cfg, h, o);
    var added := Added(s, cfg, h, o);
    BounceKeepsAccounts(added, cfg, h);
    var t := added.(pool := Bounced(s.pool, h));
    FinalizeKeepsAccounts(t, cfg, h);
    FinalizeKeepsSessions(t, cfg, h);
    FinalizeMarked(t, cfg, h);
    MarkKeepsAccounts(Finalize(t, cfg, h), cfg, h);
    assert Marked(t, h).sessions == s.sessions[h := NewSession(o)];
    AcceptIsFinalize(s, cfg, h, o, Marked(t, h));
  }

  lemma AcceptIsFinalize(s: State, cfg: Config, h: Handle, o: Offer, t: State)
    requires Judge(s, cfg, o).Admitted? && o.aborted
    requires t == Added(s, cfg, h, o).(pool := Bounced(s.pool, h), sessions := s.sessions[h := NewSession(o)])
    ensures Accept(s, cfg, h, o) == Finalize(t, cfg, h)
  {
    hide IP.Acquire, Bounced, Finalize;
  }

  /** Whatever becomes of an offer, the records of the others are not touched. */
  lemma AcceptKeepsOthers(s: State, cfg: Config, h: Handle, o: Offer)
    requires h !in s.sessions
    ensures forall k :: k in s.sessions ==> k in Accept(s, cfg, h, o).sessions && Accept(s, cfg, h, o).sessions[k] == s.sessions[k]
  {
    hide IP.Acquire, IP.Release, Bounced, Charge, Enter, Finalize, NewSession;
    if Judge(s, cfg, o).Admitted? && o.aborted {
      var t := Added(s, cfg, h, o).(pool := Bounced(s.pool, h), sessions := s.sessions[h := NewSession(o)]);
      AcceptIsFinalize(s, cfg, h, o, t);
      FinalizeKeepsSessions(t, cfg, h);
    }
  }
}
