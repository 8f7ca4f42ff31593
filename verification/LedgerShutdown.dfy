/**
  What a stopping server does to its sessions, and when (packages/nest-webtransport/src/server/
  webtransport-runtime.ts:310-418, 528-554, 1387-1435): a graceful stop closes every intake and leaves the
  work alone until the drain has ended; then, or at once if it is not graceful, every context aborts.
*/
module LedgerShutdown {
  import opened Wrappers
  import opened Lifecycles
  import opened Pools
  import opened Ledgers
  import opened LedgerInvariant
  import opened LedgerEnds
  import opened LedgerRuns
  import opened LedgerTheorems
  import opened LedgerProgress
  import F = Feeds
  import IP = Slots
  import Srv = Servers
  import W = Windows

  // ----- the four marks of a session -----

  datatype Marks = Marks(intake: bool, admission: bool, signal: bool, finalized: bool)

  function MarksOf(m: Session): Marks {
    Marks(m.intakeAborted, m.admissionAborted, m.signalAborted, m.finalized)
  }

  /** The session is known after the step, with these marks; and a scheduler that was closed and had nothing
      queued still has nothing queued. */
  ghost predicate MarkedAs(s: State, t: State, h: Handle, marks: Marks)
    requires h in s.sessions
  {
    && h in t.sessions && MarksOf(t.sessions[h]) == marks
    && (!s.sessions[h].tasks.accepting && s.sessions[h].tasks.pending == [] ==> t.sessions[h].tasks.pending == [])
  }

  ghost predicate Unmarked(s: State, t: State, h: Handle)
    requires h in s.sessions
  {
    MarkedAs(s, t, h, MarksOf(s.sessions[h]))
  }

  lemma SubmitUnmarked(s: State, cfg: Config, k: Handle, bytes: nat, h: Handle)
    requires k in s.sessions && h in s.sessions
    ensures Unmarked(s, Submit(s, cfg, k, bytes), h)
  {
    hide Charge, Settle, Refuse;
  }

  lemma AcceptUnmarked(s: State, cfg: Config, k: Handle, o: Offer, h: Handle)
    requires k !in s.sessions && h in s.sessions
    ensures Unmarked(s, Accept(s, cfg, k, o), h)
  {
    hide Accept;
    AcceptKeepsOthers(s, cfg, k, o);
  }

  lemma ReadDatagramUnmarked(s: State, cfg: Config, k: Handle, arrival: Arrival, h: Handle)
    requires k in s.sessions && 1 <= cfg.queueSize && |s.sessions[k].feed.queue| <= cfg.queueSize && h in s.sessions
    ensures Unmarked(s, ReadDatagram(s, cfg, k, arrival), h)
  {
    hide Metered, Receive;
    var m := s.sessions[k];
    if m.Reading() {
      var (metered, inRate) := Metered(m, cfg, arrival);
      MeteredUnmarked(m, cfg, arrival);
      ReceiveUnmarked(Put(s, k, metered), cfg, k, arrival, inRate, h);
    }
  }

  lemma MeteredUnmarked(m: Session, cfg: Config, arrival: Arrival)
    ensures var metered := Metered(m, cfg, arrival).0; metered == m.(meter := metered.meter)
  {
    hide W.TakeDatagram;
  }

  lemma ReceiveUnmarked(s: State, cfg: Config, k: Handle, arrival: Arrival, inRate: bool, h: Handle)
    requires k in s.sessions && 1 <= cfg.queueSize && |s.sessions[k].feed.queue| <= cfg.queueSize && h in s.sessions
    ensures Unmarked(s, Receive(s, cfg, k, arrival, inRate), h)
  {
    hide F.Judge, F.Offered, F.OfferedBytes, Arrival.Fits, Session.Waits;
  }

  lemma ResumeDrainUnmarked(s: State, cfg: Config, k: Handle, h: Handle)
    requires k in s.sessions && h in s.sessions
    ensures Unmarked(s, ResumeDrain(s, cfg, k), h)
  {
    hide Submit, DrainLoop, EndDrain, MarksOf;
    var m := s.sessions[k];
    DrainLoopUnmarked(m, cfg);
    if m.feed.queue != [] {
      assert MarksOf(m.(feed := F.Taken(m.feed))) == MarksOf(m) by {
        TakenUnmarked(m);
      }
      SubmitUnmarked(Put(s, k, m.(feed := F.Taken(m.feed))), cfg, k, m.feed.queue[0].size, h);
    }
  }

  lemma TakenUnmarked(m: Session)
    requires m.feed.queue != []
    ensures MarksOf(m.(feed := F.Taken(m.feed))) == MarksOf(m)
  {
  }

  lemma DrainLoopUnmarked(m: Session, cfg: Config)
    ensures MarksOf(DrainLoop(m, cfg)) == MarksOf(m) == MarksOf(EndDrain(m))
    ensures DrainLoop(m, cfg).tasks == m.tasks == EndDrain(m).tasks
  {
  }

  lemma ReadStreamUnmarked(s: State, cfg: Config, k: Handle, kind: StreamKind, id: StreamId, aborted: bool, h: Handle)
    requires k in s.sessions && h in s.sessions
    ensures Unmarked(s, ReadStream(s, cfg, k, kind, id, aborted), h)
  {
    hide Submit;
    SubmitUnmarked(if aborted then s else Track(s, k, kind, id), cfg, k, 0, h);
  }

  predicate OnlyRecords(e: Event) {
    e.AdmissionConcluded? || e.DrainContinued? || e.StreamEnded? || e.PumpEnded? || e.Observed? || e.Retired?
  }

  lemma RecordsUnmarked(s: State, cfg: Config, e: Event, h: Handle)
    requires cfg.Valid() && Enabled(s, cfg, e) && OnlyRecords(e) && h in s.sessions
    ensures Unmarked(s, Step(s, cfg, e), h)
  {
    hide IP.Release, DrainLoop, Observe, CanRetire, MarksOf;
    if e.DrainContinued? {
      DrainLoopUnmarked(s.sessions[e.h], cfg);
    } else if e.AdmissionConcluded? || e.Observed? || e.PumpEnded? {
      RecordUnmarked(s, cfg, e);
    } else if e.StreamEnded? {
      FewerStreamsUnmarked(s.sessions[s.streams[e.k].session], s.streams[e.k].kind);
    }
  }

  lemma FewerStreamsUnmarked(m: Session, kind: StreamKind)
    ensures MarksOf(m.AddStreams(kind, -1)) == MarksOf(m) && m.AddStreams(kind, -1).tasks == m.tasks
  {
  }

  lemma RecordUnmarked(s: State, cfg: Config, e: Event)
    requires cfg.Valid() && Enabled(s, cfg, e) && (e.AdmissionConcluded? || e.Observed? || e.PumpEnded?)
    ensures var t := Step(s, cfg, e); var m := t.sessions[e.h];
            && e.h in s.sessions && t == Put(s, e.h, m)
            && MarksOf(m) == MarksOf(s.sessions[e.h]) && m.tasks == s.sessions[e.h].tasks
  {
  }

  predicate OnlyWork(e: Event) {
    e.TaskBegan? || e.CallReturned? || e.TaskSettled? || e.AdmissionWorkSettled?
  }

  lemma WorkUnmarked(s: State, cfg: Config, e: Event, h: Handle)
    requires cfg.Valid() && Enabled(s, cfg, e) && OnlyWork(e) && h in s.sessions
    ensures Unmarked(s, Step(s, cfg, e), h)
  {
    hide Enter, Leave, Settle, Start, Freed, MarksOf;
    if e.TaskSettled? {
      FreedUnmarked(s.sessions[s.pool.work[e.w].session], cfg);
    } else if e.AdmissionWorkSettled? {
      SettledUnmarked(s.sessions[s.pool.work[e.w].session]);
    }
  }

  lemma FreedUnmarked(m: Session, cfg: Config)
    requires 0 < m.tasks.active
    ensures MarksOf(Freed(m, cfg)) == MarksOf(m)
    ensures m.tasks.pending == [] ==> Freed(m, cfg).tasks.pending == []
  {
  }

  lemma SettledUnmarked(m: Session)
    ensures MarksOf(m.(admission := None)) == MarksOf(m)
  {
  }

  lemma FinalizeMarks(s: State, cfg: Config, k: Handle, h: Handle)
    requires k in s.sessions && h in s.sessions
    ensures MarkedAs(s, Finalize(s, cfg, k), h,
                     if k == h && !s.sessions[h].finalized then Marks(true, true, s.sessions[h].signalAborted, true)
                     else MarksOf(s.sessions[h]))
  {
    hide AbandonSession, SettleAll, BytesOf;
  }

  lemma ReleaseUnmarked(s: State, k: Handle, h: Handle)
    requires k in s.sessions && h in s.sessions
    ensures Unmarked(s, ReleaseAll(s, k), h)
  {
    hide StreamsOf;
  }

  lemma AbortMarks(s: State, cfg: Config, k: Handle, h: Handle)
    requires k in s.sessions && h in s.sessions && SessionOk(s.sessions[h], cfg)
    ensures MarkedAs(s, AbortSignal(s, cfg, k), h, if k == h then Marks(true, true, true, true) else MarksOf(s.sessions[h]))
  {
    FinalizedMarks(s.sessions[h], cfg);
    hide Finalize, ReleaseAll, SessionOk;
    AbortIsMarked(s, cfg, k);
    FinalizeMarks(Marked(s, k), cfg, k, h);
    ReleaseUnmarked(Finalize(Marked(s, k), cfg, k), k, h);
  }

  lemma FinalizedMarks(m: Session, cfg: Config)
    requires SessionOk(m, cfg)
    ensures m.finalized ==> m.intakeAborted && m.admissionAborted && m.tasks.pending == []
    ensures m.intakeAborted <==> !m.tasks.accepting
  {
    hide F.Ok, RetirementOk;
  }

  // ----- the server's walks over its sessions -----

  /** Intake stops for exactly the sessions walked; schedulers keep what they run and what they queue. */
  lemma {:induction false} StopIntakeAllMarks(s: State, order: seq<Handle>, h: Handle)
    requires h in s.sessions
    ensures var t := StopIntakeAll(s, order); var m := s.sessions[h];
            && h in t.sessions
            && MarksOf(t.sessions[h]) == MarksOf(m).(intake := m.intakeAborted || h in order)
            && t.sessions[h].tasks.active == m.tasks.active && t.sessions[h].tasks.pending == m.tasks.pending
            && t.pool == s.pool
    decreases |order|
  {
    if order != [] {
      var t := if order[0] in s.sessions then StopIntake(s, order[0]) else s;
      StopIntakeAllMarks(t, order[1..], h);
      assert order == [order[0]] + order[1..];
    }
  }

  lemma ForceMarks(s: State, cfg: Config, k: Handle, h: Handle)
    requires k in s.sessions && h in s.sessions
    ensures var t := Force(s, cfg, k); var m := s.sessions[h];
            && h in t.sessions
            && MarksOf(t.sessions[h]) == MarksOf(m).(admission := m.admissionAborted || h == k)
            && t.sessions[h].tasks.pending == (if h == k then [] else m.tasks.pending)
  {
    hide AbandonSession, SettleAll, BytesOf;
  }

  /** Exactly the contexts walked abort, and exactly their schedulers' queues are discarded. */
  lemma {:induction false} ForceAllMarks(s: State, cfg: Config, order: seq<Handle>, h: Handle)
    requires h in s.sessions
    ensures var t := ForceAll(s, cfg, order); var m := s.sessions[h];
            && h in t.sessions
            && MarksOf(t.sessions[h]) == MarksOf(m).(admission := m.admissionAborted || h in order)
            && t.sessions[h].tasks.pending == (if h in order then [] else m.tasks.pending)
    decreases |order|
  {
    hide Force;
    if order != [] {
      var t := s;
      if order[0] in s.sessions {
        ForceMarks(s, cfg, order[0], h);
        t := Force(s, cfg, order[0]);
      }
      ForceAllMarks(t, cfg, order[1..], h);
      assert order == [order[0]] + order[1..];
    }
  }

  lemma {:induction false} FinalizeAllMarks(s: State, cfg: Config, order: seq<Handle>, h: Handle)
    requires h in s.sessions
    ensures MarkedAs(s, FinalizeAll(s, cfg, order), h,
                     if h in order && !s.sessions[h].finalized then Marks(true, true, s.sessions[h].signalAborted, true)
                     else MarksOf(s.sessions[h]))
    ensures s.sessions[h].tasks.pending == [] ==> FinalizeAll(s, cfg, order).sessions[h].tasks.pending == []
    decreases |order|
  {
    hide Finalize;
    if order != [] {
      var t := s;
      if order[0] in s.sessions {
        FinalizeMarks(s, cfg, order[0], h);
        FinalizeQueues(s, cfg, order[0], h);
        t := Finalize(s, cfg, order[0]);
      }
      FinalizeAllMarks(t, cfg, order[1..], h);
      assert order == [order[0]] + order[1..];
    }
  }

  lemma FinalizeQueues(s: State, cfg: Config, k: Handle, h: Handle)
    requires k in s.sessions && h in s.sessions
    ensures var t := Finalize(s, cfg, k); var m, m' := s.sessions[h], t.sessions[h];
            && h in t.sessions
            && m'.tasks.pending == (if k == h && !m.finalized then [] else m.tasks.pending)
            && (m'.tasks.accepting ==> m.tasks.accepting)
  {
    hide AbandonSession, SettleAll, BytesOf;
  }

  /** The marks after a move of the server. */
  function ServerMarks(s: State, m: Session, e: Srv.Event, walked: bool): Marks
    requires Srv.Enabled(s.server, e)
  {
    match e
    case StopCalled(_) =>
      if !Srv.Stops(s.server) then MarksOf(m)
      else
        MarksOf(m).(intake := m.intakeAborted || walked,
                    admission := m.admissionAborted || (walked && Srv.Step(s.server, e).state != Draining))
    case DrainEnded => MarksOf(m).(admission := m.admissionAborted || walked)
    case DriverStopped(_) =>
      if walked && !m.finalized then Marks(true, true, m.signalAborted, true) else MarksOf(m)
    case _ => MarksOf(m)
  }

  lemma ServerMovesMarks(s: State, cfg: Config, e: Srv.Event, order: seq<Handle>, h: Handle)
    requires Srv.Inv(s.server) && Srv.Enabled(s.server, e) && h in s.sessions
    ensures MarkedAs(s, MoveServer(s, cfg, e, order), h, ServerMarks(s, s.sessions[h], e, h in order))
    ensures var t := MoveServer(s, cfg, e, order);
            t.server == Srv.Step(s.server, e)
    ensures var t := MoveServer(s, cfg, e, order);
            t.server.state == Draining ==>
              && t.pool == s.pool && t.sessions[h].tasks.pending == s.sessions[h].tasks.pending
              && t.sessions[h].tasks.active == s.sessions[h].tasks.active
    ensures h in order && (e.DrainEnded? || (e.StopCalled? && Srv.Stops(s.server) && Srv.Step(s.server, e).state != Draining)) ==>
              MoveServer(s, cfg, e, order).sessions[h].tasks.pending == []
    ensures s.sessions[h].tasks.pending == [] ==> MoveServer(s, cfg, e, order).sessions[h].tasks.pending == []
  {
    DrainingIsItsPhase(s.server, e);
    hide StopIntakeAll, ForceAll, FinalizeAll, Srv.Step, Srv.Inv;
    match e {
      case StopCalled(_) =>
        var t := StopIntakeAll(s, order);
        StopIntakeAllMarks(s, order, h);
        ForceAllMarks(t, cfg, order, h);
      case DrainEnded => ForceAllMarks(s, cfg, order, h);
      case DriverStopped(_) => FinalizeAllMarks(s, cfg, order, h);
      case _ =>
    }
  }

  lemma DrainingIsItsPhase(server: Srv.Server, e: Srv.Event)
    requires Srv.Inv(server) && Srv.Enabled(server, e)
    ensures Srv.Step(server, e).state == Draining <==> Srv.Step(server, e).stop == Some(Srv.DrainingHandlers)
    ensures e.DrainEnded? || e.DriverStopped? ==> Srv.Step(server, e).state != Draining
  {
    Srv.StepKeepsInv(server, e);
  }

  // ----- one step -----

  /** The marks after any step. */
  ghost function NextMarks(s: State, cfg: Config, e: Event, h: Handle): Marks
    requires Enabled(s, cfg, e) && h in s.sessions
  {
    var m := s.sessions[h];
    match e
    case AdmissionTimedOut(k) => if k == h then MarksOf(m).(admission := true) else MarksOf(m)
    case SignalAborted(k) => if k == h then Marks(true, true, true, true) else MarksOf(m)
    case ServerMoved(move, order) => ServerMarks(s, m, move, h in order)
    case _ => MarksOf(m)
  }

  lemma StepMarks(s: State, cfg: Config, e: Event, h: Handle)
    requires cfg.Valid() && Srv.Inv(s.server) && Enabled(s, cfg, e) && h in s.sessions && SessionOk(s.sessions[h], cfg)
    ensures MarkedAs(s, Step(s, cfg, e), h, NextMarks(s, cfg, e, h))
  {
    hide SessionOk, Srv.Inv, ServerMarks;
    if OnlyRecords(e) {
      RecordsUnmarked(s, cfg, e, h);
    } else if OnlyWork(e) {
      WorkUnmarked(s, cfg, e, h);
    } else {
      hide Accept, AbortSignal, MoveServer, ReadDatagram, ResumeDrain, ReadStream, AbandonSession, Srv.Enabled, Walks;
      match e {
        case Offered(k, offer) => AcceptUnmarked(s, cfg, k, offer, h);
        case DatagramRead(k, arrival) => ReadDatagramUnmarked(s, cfg, k, arrival, h);
        case DrainResumed(k) => ResumeDrainUnmarked(s, cfg, k, h);
        case StreamRead(k, kind, id, aborted) => ReadStreamUnmarked(s, cfg, k, kind, id, aborted, h);
        case SignalAborted(k) => AbortMarks(s, cfg, k, h);
        case ServerMoved(move, order) => ServerMovesMarks(s, cfg, move, order, h);
        case AdmissionTimedOut(k) =>
      }
    }
  }

  lemma SubmitKeepsServer(s: State, cfg: Config, h: Handle, bytes: nat)
    requires h in s.sessions
    ensures Submit(s, cfg, h, bytes).server == s.server
  {
    hide Charge, Settle, Refuse;
  }

  lemma AcceptKeepsServer(s: State, cfg: Config, h: Handle, o: Offer)
    ensures Accept(s, cfg, h, o).server == s.server
  {
    hide IP.Acquire, IP.Release, Bounced, Charge, Enter, AbandonSession, SettleAll, BytesOf;
  }

  lemma ReadKeepsServer(s: State, cfg: Config, h: Handle, arrival: Arrival)
    requires h in s.sessions && 1 <= cfg.queueSize && |s.sessions[h].feed.queue| <= cfg.queueSize
    ensures ReadDatagram(s, cfg, h, arrival).server == s.server
  {
    hide F.Judge, F.Offered, F.OfferedBytes, Metered;
    MeteredUnmarked(s.sessions[h], cfg, arrival);
  }

  lemma AbortKeepsServer(s: State, cfg: Config, h: Handle)
    requires h in s.sessions
    ensures AbortSignal(s, cfg, h).server == s.server
  {
    hide AbandonSession, SettleAll, BytesOf, StreamsOf;
  }

  lemma OnlyMovesMove(s: State, cfg: Config, e: Event)
    requires cfg.Valid() && Enabled(s, cfg, e) && !e.ServerMoved?
    ensures Step(s, cfg, e).server == s.server
  {
    hide Submit, Accept, AbortSignal, ReadDatagram, AbandonSession, Enter, Leave, Settle, Start, IP.Release, Freed;
    hide DrainLoop, EndDrain, Observe, CanRetire, CanObserve;
    match e {
      case Offered(h, offer) => AcceptKeepsServer(s, cfg, h, offer);
      case DatagramRead(h, arrival) => ReadKeepsServer(s, cfg, h, arrival);
      case SignalAborted(h) => AbortKeepsServer(s, cfg, h);
      case DrainResumed(h) =>
        var m := s.sessions[h];
        if m.feed.queue != [] {
          SubmitKeepsServer(Put(s, h, m.(feed := F.Taken(m.feed))), cfg, h, m.feed.queue[0].size);
        }
      case StreamRead(h, kind, k, aborted) => SubmitKeepsServer(if aborted then s else Track(s, h, kind, k), cfg, h, 0);
      case _ =>
    }
  }

  /** A session that was not known before was offered to a running server; and, unless its signal had
      aborted, nothing of it has aborted. */
  lemma NewcomersMarks(s: State, cfg: Config, e: Event, h: Handle)
    requires cfg.Valid() && Accounted(s, cfg) && Enabled(s, cfg, e) && h !in s.sessions && h in Step(s, cfg, e).sessions
    ensures e.Offered? && e.h == h && s.server.state == ServerState.Running
    ensures var m := Step(s, cfg, e).sessions[h];
            MarksOf(m) == if e.offer.aborted then Marks(true, true, true, true) else Marks(false, false, false, false)
  {
    StepKeepsHandles(s, cfg, e);
    hide Accounted, Step, Enabled;
    assert Step(s, cfg, e) == Accept(s, cfg, h, e.offer) by {
      OfferIsAccepted(s, cfg, e);
    }
    AcceptedMarks(s, cfg, h, e.offer);
  }

  lemma OfferIsAccepted(s: State, cfg: Config, e: Event)
    requires cfg.Valid() && Enabled(s, cfg, e) && e.Offered?
    ensures Step(s, cfg, e) == Accept(s, cfg, e.h, e.offer) && e.h !in s.sessions
  {
    hide Accept;
  }

  lemma AcceptedMarks(s: State, cfg: Config, h: Handle, o: Offer)
    requires h !in s.sessions && h in Accept(s, cfg, h, o).sessions
    ensures s.server.state == ServerState.Running
    ensures MarksOf(Accept(s, cfg, h, o).sessions[h]) ==
            if o.aborted then Marks(true, true, true, true) else Marks(false, false, false, false)
  {
    hide IP.Acquire, IP.Release, Bounced, Charge, Enter, Finalize;
    if Judge(s, cfg, o).Admitted? && o.aborted {
      var t := Added(s, cfg, h, o).(pool := Bounced(s.pool, h), sessions := s.sessions[h := NewSession(o)]);
      AcceptIsFinalize(s, cfg, h, o, t);
      FinalizeMarks(t, cfg, h, h);
    }
  }

  // ----- over a run -----

  /** What a stopping server has done to every session that still holds its slots. */
  ghost predicate Quenched(s: State) {
    s.server.state !in {ServerState.Running, Draining} ==>
      forall h :: h in s.outstanding && h in s.sessions ==> s.sessions[h].admissionAborted && s.sessions[h].tasks.pending == []
  }

  /** A running server has stopped the intake of no session but by finalizing it. */
  ghost predicate TakesIn(s: State) {
    s.server.state == ServerState.Running ==> forall h :: h in s.sessions && !s.sessions[h].finalized ==> !s.sessions[h].intakeAborted
  }

  /** A server that is neither running nor draining any more has just left off by a stop or a drain's end. */
  lemma LeavesOff(server: Srv.Server, e: Srv.Event)
    requires Srv.Inv(server) && Srv.Enabled(server, e)
    requires server.state in {ServerState.Running, Draining} && Srv.Step(server, e).state !in {ServerState.Running, Draining}
    ensures e.DrainEnded? || (e.StopCalled? && Srv.Stops(server))
  {
  }

  lemma ClosedAlready(s: State, cfg: Config, h: Handle)
    requires Accounted(s, cfg) && h in s.sessions && h in s.outstanding && s.server.state != ServerState.Running
    ensures s.sessions[h].intakeAborted && !s.sessions[h].tasks.accepting
  {
    hide Accounted, SessionOk, Gone;
    ServerIsOk(s, cfg);
    SessionIsOk(s, cfg, h);
    FinalizedMarks(s.sessions[h], cfg);
  }

  lemma StepQuenches(s: State, cfg: Config, e: Event, h: Handle)
    requires cfg.Valid() && Accounted(s, cfg) && Enabled(s, cfg, e) && Quenched(s)
    requires h in s.sessions && h in s.outstanding
    requires Step(s, cfg, e).server.state !in {ServerState.Running, Draining}
    ensures var t := Step(s, cfg, e);
            h in t.sessions && t.sessions[h].admissionAborted && t.sessions[h].tasks.pending == []
  {
    hide Accounted, ServerOk, Registered, Srv.Inv, SessionOk;
    SessionIsOk(s, cfg, h);
    ServerIsOk(s, cfg);
    ServerInv(s);
    if e.ServerMoved? {
      MoveQuenches(s, cfg, e.e, e.order, h);
    } else {
      OnlyMovesMove(s, cfg, e);
      ClosedAlready(s, cfg, h);
      StepMarks(s, cfg, e, h);
      hide Step, Enabled;
      assert NextMarks(s, cfg, e, h).admission;
    }
  }

  lemma MoveQuenches(s: State, cfg: Config, e: Srv.Event, order: seq<Handle>, h: Handle)
    requires Srv.Inv(s.server) && Srv.Enabled(s.server, e) && Walks(s, e, order) && Quenched(s)
    requires h in s.sessions && h in s.outstanding
    requires MoveServer(s, cfg, e, order).server.state !in {ServerState.Running, Draining}
    ensures var t := MoveServer(s, cfg, e, order);
            h in t.sessions && t.sessions[h].admissionAborted && t.sessions[h].tasks.pending == []
  {
    hide MoveServer, Srv.Inv, Srv.Step;
    ServerMovesMarks(s, cfg, e, order, h);
    if s.server.state in {ServerState.Running, Draining} {
      LeavesOff(s.server, e);
    }
  }

  lemma StepKeepsQuenched(s: State, cfg: Config, e: Event)
    requires cfg.Valid() && Accounted(s, cfg) && Enabled(s, cfg, e) && Quenched(s)
    ensures Quenched(Step(s, cfg, e))
  {
    hide Accounted, Step, Enabled, Srv.Inv, NextMarks;
    var t := Step(s, cfg, e);
    ServerIsOk(s, cfg);
    ServerInv(s);
    hide ServerOk, Registered;
    StepKeepsHandles(s, cfg, e);
    if t.server.state !in {ServerState.Running, Draining} {
      forall h | h in t.outstanding && h in t.sessions
        ensures t.sessions[h].admissionAborted && t.sessions[h].tasks.pending == []
      {
        if h in s.sessions {
          StepQuenches(s, cfg, e, h);
        } else {
          NewcomersMarks(s, cfg, e, h);
          OnlyMovesMove(s, cfg, e);
        }
      }
    }
  }

  lemma StepKeepsTakesIn(s: State, cfg: Config, e: Event)
    requires cfg.Valid() && Accounted(s, cfg) && Enabled(s, cfg, e) && TakesIn(s)
    ensures TakesIn(Step(s, cfg, e))
  {
    hide Accounted, Step, Enabled, ServerOk, Registered;
    var t := Step(s, cfg, e);
    StepKeepsHandles(s, cfg, e);
    if t.server.state == ServerState.Running {
      forall h | h in t.sessions && !t.sessions[h].finalized
        ensures !t.sessions[h].intakeAborted
      {
        if h in s.sessions {
          StepTakesIn(s, cfg, e, h);
        } else {
          NewcomersMarks(s, cfg, e, h);
        }
      }
    }
  }

  lemma StepTakesIn(s: State, cfg: Config, e: Event, h: Handle)
    requires cfg.Valid() && Accounted(s, cfg) && Enabled(s, cfg, e) && TakesIn(s) && h in s.sessions
    requires Step(s, cfg, e).server.state == ServerState.Running
    ensures var t := Step(s, cfg, e);
            h in t.sessions && (!t.sessions[h].finalized ==> !t.sessions[h].intakeAborted)
  {
    hide Accounted, SessionOk, Registered, Srv.Inv;
    SessionIsOk(s, cfg, h);
    ServerIsOk(s, cfg);
    ServerInv(s);
    StepMarks(s, cfg, e, h);
    if e.ServerMoved? {
      ServerMovesMarks(s, cfg, e.e, e.order, h);
      StartsWithNobody(s, cfg, e.e, h);
    } else {
      OnlyMovesMove(s, cfg, e);
    }
    hide Step, Enabled, ServerOk;
  }

  /** A move that leaves the server running touches no session, and finds it running or with everything
      finalized. */
  lemma StartsWithNobody(s: State, cfg: Config, e: Srv.Event, h: Handle)
    requires Accounted(s, cfg) && Srv.Enabled(s.server, e) && h in s.sessions
    requires Srv.Step(s.server, e).state == ServerState.Running
    ensures !e.DriverStopped? && !e.DrainEnded? && (e.StopCalled? ==> !Srv.Stops(s.server))
    ensures s.server.state == ServerState.Running || s.sessions[h].finalized
  {
    hide Accounted;
    ServerIsOk(s, cfg);
    RunningFromStarting(s.server, e);
    hide Srv.Inv, Srv.Step;
  }

  lemma RunningFromStarting(server: Srv.Server, e: Srv.Event)
    requires Srv.Inv(server) && Srv.Enabled(server, e) && Srv.Step(server, e).state == ServerState.Running
    ensures !e.DriverStopped? && !e.DrainEnded? && (e.StopCalled? ==> !Srv.Stops(server))
    ensures server.state in {ServerState.Running, ServerState.Starting}
  {
  }

  lemma {:induction false} EveryRunQuenches(cfg: Config, states: seq<State>, events: seq<Event>, k: nat)
    requires IsRun(cfg, states, events) && k < |states|
    ensures Quenched(states[k]) && TakesIn(states[k])
  {
    hide IsRun, Step, Enabled, Accounted;
    RunLength(cfg, states, events);
    if k == 0 {
      RunStarts(cfg, states, events);
    } else {
      hide Quenched, TakesIn;
      EveryRunQuenches(cfg, states, events, k - 1);
      EveryRunIsAccounted(cfg, states, events, k - 1);
      RunEnables(cfg, states, events, k - 1);
      StepKeepsQuenched(states[k - 1], cfg, events[k - 1]);
      StepKeepsTakesIn(states[k - 1], cfg, events[k - 1]);
    }
  }

  lemma RunStarts(cfg: Config, states: seq<State>, events: seq<Event>)
    requires IsRun(cfg, states, events)
    ensures states[0] == Initial()
  {
    hide Step, Enabled;
  }

  /** In every state of every run in which the server neither runs nor drains, the context of every session
      that holds its slots has aborted, and nothing of it is queued in its scheduler. */
  lemma AStoppingServerAbortsEveryContext(cfg: Config, states: seq<State>, events: seq<Event>, k: nat, h: Handle)
    requires IsRun(cfg, states, events) && k < |states| && h in states[k].outstanding
    requires states[k].server.state !in {ServerState.Running, Draining}
    ensures h in states[k].sessions
    ensures var m := states[k].sessions[h]; m.ContextAborted() && m.tasks.pending == []
  {
    EveryRunQuenches(cfg, states, events, k);
    EveryRunIsAccounted(cfg, states, events, k);
    hide IsRun, Accounted;
    OutstandingIsKnown(states[k], cfg);
  }

  /** In every state of every run the intake of a session that is not finalized is open if and only if the
      server is running. */
  lemma IntakeIsOpenExactlyWhileRunning(cfg: Config, states: seq<State>, events: seq<Event>, k: nat, h: Handle)
    requires IsRun(cfg, states, events) && k < |states| && h in states[k].sessions && !states[k].sessions[h].finalized
    ensures states[k].sessions[h].intakeAborted <==> states[k].server.state != ServerState.Running
    ensures states[k].sessions[h].tasks.accepting <==> states[k].server.state == ServerState.Running
  {
    EveryRunQuenches(cfg, states, events, k);
    EveryRunIsAccounted(cfg, states, events, k);
    hide IsRun, Accounted, SessionOk, Gone;
    ServerIsOk(states[k], cfg);
    SessionIsOk(states[k], cfg, h);
    FinalizedMarks(states[k].sessions[h], cfg);
  }

  /** A context aborts by exactly three kinds of steps: its admission times out, its session's own signal
      aborts, or the server stops without grace or has ended its drain. Nothing else a server, another
      session or a handler does aborts it. */
  lemma ContextsAbortExactlyBy(cfg: Config, states: seq<State>, events: seq<Event>, i: nat, h: Handle)
    requires IsRun(cfg, states, events) && i < |events| && h in states[i].sessions && !states[i].sessions[h].ContextAborted()
    ensures h in states[i + 1].sessions
    ensures states[i + 1].sessions[h].ContextAborted() <==>
            || events[i] == AdmissionTimedOut(h)
            || events[i] == SignalAborted(h)
            || states[i + 1].server.state !in {ServerState.Running, Draining}
  {
    hide IsRun, Accounted, Step, Enabled, SessionOk, Gone, ServerOk, Registered, Srv.Inv;
    RunLength(cfg, states, events);
    var s, t, e := states[i], states[i + 1], events[i];
    RunEnables(cfg, states, events, i);
    EveryRunIsAccounted(cfg, states, events, i);
    SessionIsOk(s, cfg, h);
    ServerIsOk(s, cfg);
    ServerInv(s);
    StepMarks(s, cfg, e, h);
    LiveIsOutstanding(s, cfg, h);
    StepKeepsHandles(s, cfg, e);
    if t.server.state !in {ServerState.Running, Draining} {
      EveryRunQuenches(cfg, states, events, i);
      StepQuenches(s, cfg, e, h);
    } else {
      NobodyElseAborts(s, cfg, e, h);
    }
  }

  lemma LiveIsOutstanding(s: State, cfg: Config, h: Handle)
    requires Accounted(s, cfg) && h in s.sessions && !s.sessions[h].ContextAborted()
    ensures h in s.outstanding && !s.sessions[h].finalized
  {
    hide Accounted, SessionOk;
    SessionIsOk(s, cfg, h);
    FinalizedMarks(s.sessions[h], cfg);
  }

  lemma NobodyElseAborts(s: State, cfg: Config, e: Event, h: Handle)
    requires cfg.Valid() && Srv.Inv(s.server) && Enabled(s, cfg, e) && h in s.sessions && !s.sessions[h].ContextAborted()
    requires Step(s, cfg, e).server.state in {ServerState.Running, Draining}
    ensures NextMarks(s, cfg, e, h).admission || NextMarks(s, cfg, e, h).signal <==>
            e == AdmissionTimedOut(h) || e == SignalAborted(h)
  {
    if e.ServerMoved? {
      ServerMovesMarks(s, cfg, e.e, e.order, h);
      QuietLeaves(s.server, e.e);
      hide Srv.Inv, Srv.Step, MoveServer, Srv.Enabled;
    }
  }

  lemma QuietLeaves(server: Srv.Server, e: Srv.Event)
    requires Srv.Inv(server) && Srv.Enabled(server, e) && Srv.Step(server, e).state in {ServerState.Running, Draining}
    ensures !e.DrainEnded? && !e.DriverStopped?
    ensures e.StopCalled? && Srv.Stops(server) ==> Srv.Step(server, e).state == Draining
  {
  }

  /** A session is finalized by exactly two kinds of steps: its own signal aborts, or the driver's stop has
      been awaited, successful or not. */
  lemma FinalizedExactlyBy(cfg: Config, states: seq<State>, events: seq<Event>, i: nat, h: Handle)
    requires IsRun(cfg, states, events) && i < |events| && h in states[i].sessions && !states[i].sessions[h].finalized
    ensures h in states[i + 1].sessions
    ensures states[i + 1].sessions[h].finalized <==>
            events[i] == SignalAborted(h) || (events[i].ServerMoved? && events[i].e.DriverStopped?)
  {
    hide IsRun, Accounted, Step, SessionOk, Gone, ServerOk, Srv.Inv;
    RunLength(cfg, states, events);
    RunEnables(cfg, states, events, i);
    EveryRunIsAccounted(cfg, states, events, i);
    SessionIsOk(states[i], cfg, h);
    ServerIsOk(states[i], cfg);
    ServerInv(states[i]);
    StepMarks(states[i], cfg, events[i], h);
    assert states[i].sessions[h].id in states[i].ids && h in states[i].ids.Values;
    hide Registered;
    FinalMarks(states[i], cfg, events[i], h);
    hide Enabled, NextMarks;
  }

  lemma FinalMarks(s: State, cfg: Config, e: Event, h: Handle)
    requires Enabled(s, cfg, e) && h in s.sessions && !s.sessions[h].finalized && h in s.ids.Values
    ensures NextMarks(s, cfg, e, h).finalized <==> e == SignalAborted(h) || (e.ServerMoved? && e.e.DriverStopped?)
  {
    hide CanRetire, CanObserve, Srv.Enabled, Srv.Step;
  }

  /** In every run, the step of the server that begins to drain, and every step of the server while it
      drains: no context aborts, no work is settled, granted, charged or taken from the queue for the
      budget, and no scheduler loses anything it runs or has queued. */
  lemma AGracefulStopSparesTheWork(cfg: Config, states: seq<State>, events: seq<Event>, i: nat, h: Handle)
    requires IsRun(cfg, states, events) && i < |events| && events[i].ServerMoved?
    requires states[i + 1].server.state == Draining && h in states[i].sessions
    ensures states[i + 1].pool == states[i].pool
    ensures h in states[i + 1].sessions
    ensures var m, m' := states[i].sessions[h], states[i + 1].sessions[h];
            && m'.tasks.active == m.tasks.active && m'.tasks.pending == m.tasks.pending
            && (m'.ContextAborted() <==> m.ContextAborted()) && m'.finalized == m.finalized
  {
    hide IsRun, Accounted, SessionOk, Gone, ServerOk, Registered, Srv.Inv;
    RunLength(cfg, states, events);
    var s, e := states[i], events[i];
    RunEnables(cfg, states, events, i);
    EveryRunIsAccounted(cfg, states, events, i);
    ServerIsOk(s, cfg);
    ServerInv(s);
    MoveSpares(s, cfg, e.e, e.order, h);
    hide MoveServer;
  }

  lemma MoveSpares(s: State, cfg: Config, e: Srv.Event, order: seq<Handle>, h: Handle)
    requires Srv.Inv(s.server) && Srv.Enabled(s.server, e) && h in s.sessions
    requires MoveServer(s, cfg, e, order).server.state == Draining
    ensures var t := MoveServer(s, cfg, e, order);
            && t.pool == s.pool && h in t.sessions
            && t.sessions[h].tasks.active == s.sessions[h].tasks.active
            && t.sessions[h].tasks.pending == s.sessions[h].tasks.pending
            && MarksOf(t.sessions[h]).(intake := s.sessions[h].intakeAborted) == MarksOf(s.sessions[h])
  {
    hide MoveServer;
    ServerMovesMarks(s, cfg, e, order, h);
    QuietLeaves(s.server, e);
    hide Srv.Inv, Srv.Step, Srv.Enabled;
  }

  /** In every run a drain that has begun goes on until it has ended. */
  lemma {:induction false} DrainsOn(cfg: Config, states: seq<State>, events: seq<Event>, i: nat, k: nat)
    requires IsRun(cfg, states, events) && i <= k < |states| && states[i].server.state == Draining
    requires forall n :: i <= n < k && n < |events| && events[n].ServerMoved? ==> !events[n].e.DrainEnded?
    ensures states[k].server.state == Draining
    decreases k
  {
    hide IsRun, Accounted, Step, Enabled, ServerOk, Registered;
    RunLength(cfg, states, events);
    if i < k {
      var s, e := states[k - 1], events[k - 1];
      DrainsOn(cfg, states, events, i, k - 1);
      RunEnables(cfg, states, events, k - 1);
      EveryRunIsAccounted(cfg, states, events, k - 1);
      ServerIsOk(s, cfg);
      ServerInv(s);
      if e.ServerMoved? {
        StaysDraining(s, cfg, e);
      } else {
        OnlyMovesMove(s, cfg, e);
      }
    }
  }

  lemma StaysDraining(s: State, cfg: Config, e: Event)
    requires cfg.Valid() && Srv.Inv(s.server) && Enabled(s, cfg, e) && e.ServerMoved? && !e.e.DrainEnded?
    requires s.server.state == Draining
    ensures Step(s, cfg, e).server.state == Draining
  {
    hide StopIntakeAll, ForceAll, FinalizeAll;
  }
}
