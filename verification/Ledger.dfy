/**
  The resource ledger of the runtime as a transition system over any number of sessions
  (packages/nest-webtransport/src/server/webtransport-runtime.ts:310-588, 709-1032, 1079-1130, 1304-1435).

  One event is one synchronous segment between two awaits. Everything the program waits for -
  authentication, handlers, signals, timers, stream reads, driver results - is an event of the
  environment, enabled whenever the program could see it and in any order.

  A managed session keeps its record for ever under its own handle; `outstanding` says whether it
  still holds its slots. Schedulers and queues appear here as the values their objects are proved
  against.
*/
module Ledgers {
  import opened Wrappers
  import opened Lifecycles
  import opened Pools
  import B = Budgets
  import F = Feeds
  import IP = Slots
  import Q = Queues
  import Srv = Servers
  import T = Tasks
  import W = Windows

  type SessionId = nat
  type StreamId = nat

  datatype Config = Config(
    maxSessions: nat,
    handlers: B.Limits,
    tasks: T.Limits,
    queueSize: nat,
    queueOverflow: Q.Overflow,
    maxQueuedBytes: nat,
    maxDatagramSize: nat,
    maxDatagramsPerSecond: nat,
    ip: IP.Limits,
    maxStreams: nat,
    maxBidirectional: nat,
    maxUnidirectional: nat)
  {
    /** What option validation guarantees. */
    predicate Valid() {
      && 1 <= maxSessions
      && 1 <= handlers.concurrency
      && tasks.Valid()
      && 1 <= queueSize
      && DatagramRate().Valid()
      && ip.Valid()
      && ip.maxRecords == maxSessions
    }

    function DatagramRate(): W.Limits {
      W.Limits(maxDatagramsPerSecond, 1000.0)
    }

    function MaxStreams(kind: StreamKind): nat {
      if kind.Bidirectional? then maxBidirectional else maxUnidirectional
    }
  }

  datatype StreamKind = Bidirectional | Unidirectional

  /** A tracked stream that has not been released. */
  datatype Stream = Stream(session: Handle, kind: StreamKind)

  datatype Pump = DatagramPump | StreamPump(kind: StreamKind) | DrainPump

  /** What `retireSession` waits for, as captured when it began, and what it has seen so far. */
  datatype Retirement = Retirement(
    admission: Option<WorkId>,
    pumps: set<Pump>,
    admissionSeen: bool,
    idleSeen: bool,
    pumpsSeen: bool)

  datatype Session = Session(
    id: SessionId,
    ip: IP.Address,
    feed: F.Feed,
    meter: W.Meter,
    tasks: T.Core<WorkId>,
    admission: Option<WorkId>,
    admitted: bool,
    intakeAborted: bool,
    admissionAborted: bool,
    signalAborted: bool,
    finalized: bool,
    bidirectional: int,
    unidirectional: int,
    pumps: set<Pump>,
    retirement: Option<Retirement>)
  {
    /** The state of `context.signal`. */
    predicate ContextAborted() {
      signalAborted || admissionAborted
    }

    predicate Reading() {
      !signalAborted && !intakeAborted
    }

    /** Whether `whenCapacityAvailable` would wait now. */
    predicate Waits(limits: T.Limits) {
      tasks.accepting && !tasks.HasCapacity(limits) && !signalAborted
    }

    /** What the scheduler's `flushWaiters` does to a drain loop that is waiting for capacity. */
    function Flushed(limits: T.Limits): Session {
      if tasks.HasCapacity(limits) || !tasks.accepting then this.(feed := F.Woken(feed)) else this
    }

    function Streams(kind: StreamKind): int {
      if kind.Bidirectional? then bidirectional else unidirectional
    }

    function AddStreams(kind: StreamKind, n: int): Session {
      if kind.Bidirectional? then this.(bidirectional := bidirectional + n)
      else this.(unidirectional := unidirectional + n)
    }
  }

  datatype State = State(
    server: Srv.Server,
    ids: map<SessionId, Handle>,
    outstanding: set<Handle>,
    sessions: map<Handle, Session>,
    ip: IP.Table,
    pool: Pool,
    queuedBytes: int,
    streams: map<StreamId, Stream>,
    activeStreams: int)

  function Initial(): State {
    State(Srv.Initial(), map[], {}, map[], map[], Empty(), 0, map[], 0)
  }

  function Put(s: State, h: Handle, m: Session): State {
    s.(sessions := s.sessions[h := m])
  }

  // ----- admission -----

  datatype Offer = Offer(
    id: SessionId,
    ip: IP.Address,
    driverRunning: bool,
    routed: bool,
    headersAllowed: bool,
    readersReserved: bool,
    aborted: bool,
    clock: IP.Readings,
    freedAt: int,
    openedAt: real)

  datatype Verdict =
    | ServerUnavailable | NoRoute | GlobalLimit | DuplicateId | HeadersRejected
    | IpLimit | HandlerLimit | ReaderSetup | Admitted

  function Judge(s: State, cfg: Config, o: Offer): Verdict {
    if s.server.state != ServerState.Running || !o.driverRunning then ServerUnavailable
    else if !o.routed then NoRoute
    else if |s.outstanding| >= cfg.maxSessions then GlobalLimit
    else if o.id in s.ids then DuplicateId
    else if !o.headersAllowed then HeadersRejected
    else if !IP.Acquire(s.ip, cfg.ip, o.ip, o.clock).1 then IpLimit
    else if !s.pool.budget.CanReserve(cfg.handlers) then HandlerLimit
    else if !o.readersReserved then ReaderSetup
    else Admitted
  }

  function NewSession(o: Offer): Session {
    Session(o.id, o.ip, F.EmptyFeed, W.Meter(o.openedAt, 0), T.Core(0, [], true), None, false,
            false, false, o.aborted, false, 0, 0, {}, None)
  }

  function Accept(s: State, cfg: Config, h: Handle, o: Offer): State {
    var table := IP.Acquire(s.ip, cfg.ip, o.ip, o.clock).0;
    match Judge(s, cfg, o)
    case IpLimit => s.(ip := table)
    case HandlerLimit => s.(ip := IP.Release(table, o.ip, o.freedAt))
    case ReaderSetup =>
      s.(ip := IP.Release(table, o.ip, o.freedAt), pool := Bounced(s.pool, h))
    case Admitted => Admit(s.(ip := table), cfg, h, o)
    case _ => s
  }

  /** The session is registered and, unless its signal has aborted already, its admission begins. */
  function Admit(s: State, cfg: Config, h: Handle, o: Offer): State {
    var t := s.(ids := s.ids[o.id := h], outstanding := s.outstanding + {h});
    if o.aborted then
      Finalize(Put(t, h, NewSession(o)).(pool := Bounced(s.pool, h)), cfg, h)
    else
      var charged := Charge(s.pool, h, Admission, 0, Started);
      Put(t, h, NewSession(o).(admission := Some(s.pool.next)))
        .(pool := Enter(charged, cfg.handlers, s.pool.next, false))
  }

  /** A reservation for an admission that never begins. */
  function Bounced(p: Pool, h: Handle): Pool {
    Settle(Charge(p, h, Admission, 0, Started), p.next)
  }

  /** After a successful admission the pumps start, unless intake has been stopped meanwhile. */
  function Conclude(s: State, h: Handle, pumps: set<Pump>): State
    requires h in s.sessions
  {
    var m := s.sessions[h];
    Put(s, h, m.(admitted := true,
                 pumps := if m.Reading() && s.server.state == ServerState.Running then m.pumps + pumps else m.pumps))
  }

  // ----- submitting work -----

  function SubmitOutcome(s: State, cfg: Config, h: Handle): T.Outcome
    requires h in s.sessions
  {
    if s.pool.budget.CanReserve(cfg.handlers) then s.sessions[h].tasks.Offer(cfg.tasks)
    else cfg.tasks.Refusal()
  }

  /** `submit`: the global reservation first, then the session's scheduler; a refusal by either
      settles at once. The caller has already charged the bytes to the server. */
  function Submit(s: State, cfg: Config, h: Handle, bytes: nat): State
    requires h in s.sessions
  {
    var m := s.sessions[h];
    if !s.pool.budget.CanReserve(cfg.handlers) then
      s.(pool := Refuse(s.pool), queuedBytes := s.queuedBytes - bytes)
    else
      match m.tasks.Offer(cfg.tasks)
      case Started =>
        Put(s, h, m.(tasks := m.tasks.Submit(cfg.tasks, s.pool.next)))
          .(pool := Charge(s.pool, h, Task, bytes, Started))
      case Queued =>
        Put(s, h, m.(tasks := m.tasks.Submit(cfg.tasks, s.pool.next)))
          .(pool := Charge(s.pool, h, Task, bytes, Queued))
      case _ =>
        s.(pool := Settle(Charge(s.pool, h, Task, bytes, Started), s.pool.next),
           queuedBytes := s.queuedBytes - bytes)
  }

  /** A started task asks the budget to run. */
  function Begin(s: State, cfg: Config, w: WorkId): State
    requires w in s.pool.work && s.pool.work[w].session in s.sessions
  {
    s.(pool := Enter(s.pool, cfg.handlers, w, s.sessions[s.pool.work[w].session].ContextAborted()))
  }

  /** The admission promise settles and gives its reservation back. */
  function SettleAdmission(s: State, h: Handle, w: WorkId): State
    requires h in s.sessions
  {
    Put(s, h, s.sessions[h].(admission := None)).(pool := Settle(s.pool, w))
  }

  function EndPump(s: State, h: Handle, pump: Pump): State
    requires h in s.sessions
  {
    Put(s, h, s.sessions[h].(pumps := s.sessions[h].pumps - {pump}))
  }

  /** One running task less, and the scheduler's waiters flushed. */
  function Freed(m: Session, cfg: Config): Session
    requires 0 < m.tasks.active
  {
    m.(tasks := m.tasks.Finish()).Flushed(cfg.tasks)
  }

  /** A scheduled task's promise has settled: its slot is freed, it is settled, the oldest queued task of
      the session takes the slot, and whoever waits for capacity is woken. */
  function Finish(s: State, cfg: Config, h: Handle, w: WorkId): State
    requires h in s.sessions && w in s.pool.work && 0 < s.sessions[h].tasks.active
  {
    var m := s.sessions[h];
    var settled := Settle(s.pool, w);
    Put(s, h, Freed(m, cfg))
      .(pool := if m.tasks.pending == [] then settled else Start(settled, m.tasks.pending[0]),
        queuedBytes := s.queuedBytes - s.pool.work[w].bytes)
  }

  // ----- datagrams -----

  /** A value the datagram pump has read, the largest datagram the transport allows at that moment, and
      the clock should it be asked. */
  datatype Arrival = Arrival(size: nat, transportMax: nat, now: real) {
    predicate Fits(cfg: Config) {
      size <= cfg.maxDatagramSize && size <= transportMax
    }
  }

  /** The rate is asked only for a datagram that fits. */
  function Metered(m: Session, cfg: Config, arrival: Arrival): (Session, bool) {
    if !arrival.Fits(cfg) then (m, false)
    else var (meter, taken) := W.TakeDatagram(m.meter, cfg.DatagramRate(), arrival.now); (m.(meter := meter), taken)
  }

  function ReadDatagram(s: State, cfg: Config, h: Handle, arrival: Arrival): State
    requires h in s.sessions && 1 <= cfg.queueSize && |s.sessions[h].feed.queue| <= cfg.queueSize
  {
    var m := s.sessions[h];
    if !m.Reading() then Put(s, h, m.(pumps := m.pumps - {DatagramPump}))
    else var (metered, inRate) := Metered(m, cfg, arrival); Receive(Put(s, h, metered), cfg, h, arrival, inRate)
  }

  /** What follows once the rate has answered. */
  function Receive(s: State, cfg: Config, h: Handle, arrival: Arrival, inRate: bool): State
    requires h in s.sessions && 1 <= cfg.queueSize && |s.sessions[h].feed.queue| <= cfg.queueSize
  {
    var m := s.sessions[h];
    if !F.Judge(m.feed, cfg.queueSize, cfg.queueOverflow, arrival.size, arrival.Fits(cfg), inRate,
                s.queuedBytes, cfg.maxQueuedBytes).ToQueue? then
      Put(s, h, m.(feed := F.Dropped(m.feed)))
    else
      var feed := F.Offered(m.feed, cfg.queueSize, cfg.queueOverflow, arrival.size, m.Waits(cfg.tasks));
      Put(s, h, m.(feed := feed, pumps := if feed.drain.NotDraining? then m.pumps else m.pumps + {DrainPump}))
        .(queuedBytes := s.queuedBytes + F.OfferedBytes(m.feed, cfg.queueSize, cfg.queueOverflow, arrival.size))
  }

  function EndDrain(m: Session): Session {
    m.(feed := m.feed.(drain := F.NotDraining), pumps := m.pumps - {DrainPump})
  }

  /** The top of the drain loop, up to its wait for capacity. */
  function DrainLoop(m: Session, cfg: Config): Session {
    if m.feed.queue != [] && m.Reading() then m.(feed := m.feed.(drain := F.Suspended(m.Waits(cfg.tasks))))
    else EndDrain(m)
  }

  function ResumeDrain(s: State, cfg: Config, h: Handle): State
    requires h in s.sessions
  {
    var m := s.sessions[h];
    if !m.tasks.HasCapacity(cfg.tasks) then
      Put(s, h, if !m.tasks.accepting || !m.Reading() then EndDrain(m) else DrainLoop(m, cfg))
    else if m.feed.queue == [] then Put(s, h, EndDrain(m))
    else Submit(Put(s, h, m.(feed := F.Taken(m.feed))), cfg, h, m.feed.queue[0].size)
  }

  function ContinueDrain(s: State, cfg: Config, h: Handle): State
    requires h in s.sessions
  {
    Put(s, h, DrainLoop(s.sessions[h], cfg))
  }

  // ----- streams -----

  function ReadStream(s: State, cfg: Config, h: Handle, kind: StreamKind, k: StreamId, aborted: bool): State
    requires h in s.sessions
  {
    var m := s.sessions[h];
    if !m.Reading() then Put(s, h, m.(pumps := m.pumps - {StreamPump(kind)}))
    else if s.activeStreams >= cfg.maxStreams || m.Streams(kind) >= cfg.MaxStreams(kind) then s
    else Submit(if aborted then s else Track(s, h, kind, k), cfg, h, 0)
  }

  function Track(s: State, h: Handle, kind: StreamKind, k: StreamId): State
    requires h in s.sessions
  {
    Put(s, h, s.sessions[h].AddStreams(kind, 1))
      .(streams := s.streams[k := Stream(h, kind)], activeStreams := s.activeStreams + 1)
  }

  function ReleaseStream(s: State, k: StreamId): State
    requires k in s.streams && s.streams[k].session in s.sessions
  {
    var st := s.streams[k];
    Put(s, st.session, s.sessions[st.session].AddStreams(st.kind, -1))
      .(streams := s.streams - {k}, activeStreams := s.activeStreams - 1)
  }

  function StreamsOf(streams: map<StreamId, Stream>, h: Handle, kind: StreamKind): set<StreamId> {
    set k | k in streams && streams[k] == Stream(h, kind)
  }

  /** Every stream of the session is released by the session's signal. */
  function ReleaseAll(s: State, h: Handle): State
    requires h in s.sessions
  {
    Released(s, h, StreamsOf(s.streams, h, Bidirectional), StreamsOf(s.streams, h, Unidirectional))
  }

  function Released(s: State, h: Handle, both: set<StreamId>, one: set<StreamId>): State
    requires h in s.sessions
  {
    Put(s, h, s.sessions[h].AddStreams(Bidirectional, -|both|).AddStreams(Unidirectional, -|one|))
      .(streams := s.streams - (both + one), activeStreams := s.activeStreams - |both| - |one|)
  }

  // ----- ending a session -----

  /** The context signal of the session aborts: its waiting calls leave the global queue. */
  function AbandonSession(s: State, cfg: Config, h: Handle): Pool {
    AbandonAll(s.pool, cfg.handlers, WaitersOf(s.pool.budget.waiters, s.pool.work, h))
  }

  function StopIntake(s: State, h: Handle): State
    requires h in s.sessions
  {
    var m := s.sessions[h];
    Put(s, h, IntakeStopped(m)).(queuedBytes := s.queuedBytes - m.feed.bytes)
  }

  function IntakeStopped(m: Session): Session {
    m.(feed := F.Woken(F.Cleared(m.feed)), tasks := m.tasks.(accepting := false), intakeAborted := true)
  }

  function ForcedOut(m: Session): Session {
    m.(feed := F.Woken(m.feed), tasks := T.Core(m.tasks.active, [], false), admissionAborted := true)
  }

  /** A forced stop: abort the context and discard what is queued. */
  function Force(s: State, cfg: Config, h: Handle): State
    requires h in s.sessions
  {
    var m := s.sessions[h];
    var abandoned := AbandonSession(s, cfg, h);
    Put(s, h, ForcedOut(m))
      .(pool := SettleAll(abandoned, m.tasks.pending),
        queuedBytes := s.queuedBytes - BytesOf(abandoned.work, m.tasks.pending))
  }

  function TimeOutAdmission(s: State, cfg: Config, h: Handle): State
    requires h in s.sessions
  {
    Put(s, h, s.sessions[h].(admissionAborted := true)).(pool := AbandonSession(s, cfg, h))
  }

  function Final(m: Session): Session {
    m.(feed := F.Woken(F.Cleared(m.feed)),
       tasks := T.Core(m.tasks.active, [], false),
       intakeAborted := true,
       admissionAborted := true,
       finalized := true,
       retirement := Some(Retirement(m.admission, m.pumps, false, false, false)))
  }

  function Finalize(s: State, cfg: Config, h: Handle): State
    requires h in s.sessions
  {
    var m := s.sessions[h];
    if m.finalized then s
    else
      var abandoned := AbandonSession(s, cfg, h);
      Put(s, h, Final(m))
        .(ids := s.ids - {m.id},
          pool := SettleAll(abandoned, m.tasks.pending),
          queuedBytes := s.queuedBytes - m.feed.bytes - BytesOf(abandoned.work, m.tasks.pending))
  }

  /** The session's own signal aborts: it is finalized and its streams are released. */
  function AbortSignal(s: State, cfg: Config, h: Handle): State
    requires h in s.sessions
  {
    var t := Finalize(Put(s, h, s.sessions[h].(signalAborted := true)), cfg, h);
    ReleaseAll(t, h)
  }

  /** What a retiring session can observe next. */
  datatype Observation = AdmissionSettled | SchedulerIdle | PumpsSettled

  predicate CanObserve(s: State, h: Handle, o: Observation)
    requires h in s.sessions
  {
    var m := s.sessions[h];
    && m.retirement.Some?
    && match o
       case AdmissionSettled => m.admission.None?
       case SchedulerIdle => m.tasks.Idle()
       case PumpsSettled => m.retirement.value.pumps !! m.pumps
  }

  function Observe(m: Session, o: Observation): Session
    requires m.retirement.Some?
  {
    var r := m.retirement.value;
    m.(retirement := Some(match o
                          case AdmissionSettled => r.(admissionSeen := true)
                          case SchedulerIdle => r.(idleSeen := true)
                          case PumpsSettled => r.(pumpsSeen := true)))
  }

  predicate CanRetire(m: Session) {
    m.retirement.Some? && m.retirement.value.admissionSeen && m.retirement.value.idleSeen && m.retirement.value.pumpsSeen
  }

  function Retire(s: State, h: Handle, now: int): State
    requires h in s.sessions
  {
    if h !in s.outstanding then s
    else s.(outstanding := s.outstanding - {h}, ip := IP.Release(s.ip, s.sessions[h].ip, now))
  }

  // ----- the server as a whole -----

  function StopIntakeAll(s: State, order: seq<Handle>): State
    decreases |order|
  {
    if order == [] then s
    else StopIntakeAll(if order[0] in s.sessions then StopIntake(s, order[0]) else s, order[1..])
  }

  function ForceAll(s: State, cfg: Config, order: seq<Handle>): State
    decreases |order|
  {
    if order == [] then s
    else ForceAll(if order[0] in s.sessions then Force(s, cfg, order[0]) else s, cfg, order[1..])
  }

  function FinalizeAll(s: State, cfg: Config, order: seq<Handle>): State
    decreases |order|
  {
    if order == [] then s
    else FinalizeAll(if order[0] in s.sessions then Finalize(s, cfg, order[0]) else s, cfg, order[1..])
  }

  /** A start or stop segment, with the sessions it walks in the order it walks them. */
  function MoveServer(s: State, cfg: Config, e: Srv.Event, order: seq<Handle>): State
    requires Srv.Enabled(s.server, e)
  {
    var server := Srv.Step(s.server, e);
    match e
    case StopCalled(_) =>
      if !Srv.Stops(s.server) then s.(server := server)
      else
        var t := StopIntakeAll(s, order);
        (if server.stop == Some(Srv.DrainingHandlers) then t else ForceAll(t, cfg, order)).(server := server)
    case DrainEnded => ForceAll(s, cfg, order).(server := server)
    case DriverStopped(_) => FinalizeAll(s, cfg, order).(server := server)
    case _ => s.(server := server)
  }

  ghost predicate Walks(s: State, e: Srv.Event, order: seq<Handle>) {
    match e
    case StopCalled(_) => forall h :: h in order <==> h in s.outstanding
    case DrainEnded => forall h :: h in order <==> h in s.outstanding
    case DriverStopped(_) => forall h :: h in order <==> h in s.ids.Values
    case _ => true
  }

  // ----- events -----

  datatype Event =
    | Offered(h: Handle, offer: Offer)
    | AdmissionTimedOut(h: Handle)
    | AdmissionConcluded(h: Handle, pumps: set<Pump>)
    | DatagramRead(h: Handle, arrival: Arrival)
    | DrainResumed(h: Handle)
    | DrainContinued(h: Handle)
    | StreamRead(h: Handle, kind: StreamKind, k: StreamId, aborted: bool)
    | StreamEnded(k: StreamId)
    | PumpEnded(h: Handle, pump: Pump)
    | TaskBegan(w: WorkId)
    | CallReturned(w: WorkId)
    | TaskSettled(w: WorkId)
    | AdmissionWorkSettled(w: WorkId)
    | SignalAborted(h: Handle)
    | Observed(h: Handle, what: Observation)
    | Retired(h: Handle, now: int)
    | ServerMoved(e: Srv.Event, order: seq<Handle>)

  predicate HasWork(s: State, w: WorkId, kind: Kind, phase: Phase) {
    w in s.pool.work && w < s.pool.next && s.pool.work[w].kind == kind && s.pool.work[w].phase == phase
    && s.pool.work[w].session in s.sessions
  }

  /** Work that has a scheduler slot and has not asked the budget yet. An admission asks in the segment
      that charges it, so between segments this is always a task. */
  predicate AsksBudget(s: State, w: WorkId) {
    w in s.pool.work && w < s.pool.next && s.pool.work[w].phase.Started? && s.pool.work[w].session in s.sessions
  }

  ghost predicate Enabled(s: State, cfg: Config, e: Event) {
    match e
    case Offered(h, _) => h !in s.sessions
    case AdmissionTimedOut(h) => h in s.sessions && s.sessions[h].admission.Some?
    case AdmissionConcluded(h, pumps) =>
      h in s.sessions && !s.sessions[h].admitted && s.sessions[h].admission.None? && DrainPump !in pumps
    case DatagramRead(h, _) =>
      h in s.sessions && DatagramPump in s.sessions[h].pumps && |s.sessions[h].feed.queue| <= cfg.queueSize
    case DrainResumed(h) => h in s.sessions && s.sessions[h].feed.drain.Resuming?
    case DrainContinued(h) => h in s.sessions && s.sessions[h].feed.drain.AwaitingOutcome?
    case StreamRead(h, kind, k, _) => h in s.sessions && StreamPump(kind) in s.sessions[h].pumps && k !in s.streams
    case StreamEnded(k) => k in s.streams && s.streams[k].session in s.sessions
    case PumpEnded(h, pump) => h in s.sessions && pump in s.sessions[h].pumps && pump != DrainPump
    case TaskBegan(w) => AsksBudget(s, w)
    case CallReturned(w) => w in s.pool.work && s.pool.work[w].phase.Running? && 0 < s.pool.budget.running
    case TaskSettled(w) => HasWork(s, w, Task, Returned) && 0 < s.sessions[s.pool.work[w].session].tasks.active
    case AdmissionWorkSettled(w) => HasWork(s, w, Admission, Returned)
    case SignalAborted(h) => h in s.sessions && !s.sessions[h].signalAborted
    case Observed(h, what) => h in s.sessions && CanObserve(s, h, what)
    case Retired(h, _) => h in s.sessions && CanRetire(s.sessions[h])
    case ServerMoved(e, order) => Srv.Enabled(s.server, e) && Walks(s, e, order)
  }

  ghost function Step(s: State, cfg: Config, e: Event): State
    requires cfg.Valid() && Enabled(s, cfg, e)
  {
    match e
    case Offered(h, offer) => Accept(s, cfg, h, offer)
    case AdmissionTimedOut(h) => TimeOutAdmission(s, cfg, h)
    case AdmissionConcluded(h, pumps) => Conclude(s, h, pumps)
    case DatagramRead(h, arrival) => ReadDatagram(s, cfg, h, arrival)
    case DrainResumed(h) => ResumeDrain(s, cfg, h)
    case DrainContinued(h) => ContinueDrain(s, cfg, h)
    case StreamRead(h, kind, k, aborted) => ReadStream(s, cfg, h, kind, k, aborted)
    case StreamEnded(k) => ReleaseStream(s, k)
    case PumpEnded(h, pump) => EndPump(s, h, pump)
    case TaskBegan(w) => Begin(s, cfg, w)
    case CallReturned(w) => s.(pool := Leave(s.pool, cfg.handlers, w))
    case TaskSettled(w) => Finish(s, cfg, s.pool.work[w].session, w)
    case AdmissionWorkSettled(w) => SettleAdmission(s, s.pool.work[w].session, w)
    case SignalAborted(h) => AbortSignal(s, cfg, h)
    case Observed(h, what) => Put(s, h, Observe(s.sessions[h], what))
    case Retired(h, now) => Retire(s, h, now)
    case ServerMoved(e, order) => MoveServer(s, cfg, e, order)
  }
}
