/**
  A finalized session always leaves: it is never set back, each of its own steps brings it nearer, some
  own step is always possible until it can retire, and so everything can be given back from every state.
*/
module LedgerProgress {
  import opened Wrappers
  import opened Sums
  import opened Pools
  import opened Ledgers
  import opened LedgerInvariant
  import opened LedgerSteps
  import opened LedgerEnds
  import opened LedgerRuns
  import opened LedgerTheorems
  import B = Budgets
  import F = Feeds
  import IP = Slots
  import Srv = Servers

  /** The steps a piece of work still has before it. */
  function PhaseWeight(phase: Phase): nat {
    match phase
    case Queued => 4
    case Started => 3
    case Waiting => 3
    case Running => 2
    case Returned => 1
  }

  ghost function StepsOf(h: Handle): Work -> nat {
    (w: Work) => if w.session == h then PhaseWeight(w.phase) else 0
  }

  predicate Seen(r: Retirement, what: Observation) {
    match what
    case AdmissionSettled => r.admissionSeen
    case SchedulerIdle => r.idleSeen
    case PumpsSettled => r.pumpsSeen
  }

  function Unseen(m: Session): nat {
    if m.retirement.None? then 3
    else
      var r := m.retirement.value;
      (if r.admissionSeen then 0 else 1) + (if r.idleSeen then 0 else 1) + if r.pumpsSeen then 0 else 1
  }

  /** How many own steps a finalized session has before it can retire. */
  ghost function Left(s: State, h: Handle): nat
    requires h in s.sessions
  {
    Sum(s.pool.work, StepsOf(h)) + |s.sessions[h].pumps| + Unseen(s.sessions[h])
  }

  /** The session has been finalized and still holds its slots. */
  ghost predicate Ending(s: State, cfg: Config, h: Handle) {
    Accounted(s, cfg) && h in s.outstanding && h in s.sessions && s.sessions[h].finalized
  }

  /** The steps of the session itself: of its work, of its pumps, and of its retirement. */
  predicate Own(s: State, e: Event, h: Handle) {
    match e
    case TaskBegan(w) => w in s.pool.work && s.pool.work[w].session == h
    case CallReturned(w) => w in s.pool.work && s.pool.work[w].session == h
    case TaskSettled(w) => w in s.pool.work && s.pool.work[w].session == h
    case AdmissionWorkSettled(w) => w in s.pool.work && s.pool.work[w].session == h
    case PumpEnded(k, _) => k == h
    case DrainResumed(k) => k == h
    case DrainContinued(k) => k == h
    case DatagramRead(k, _) => k == h
    case StreamRead(k, _, _, _) => k == h
    case Observed(k, what) =>
      k == h && h in s.sessions
      && s.sessions[h].retirement.Some? && !Seen(s.sessions[h].retirement.value, what)
    case _ => false
  }

  /** What finalizing has left of a session. */
  lemma EndingFacts(s: State, cfg: Config, h: Handle)
    requires Ending(s, cfg, h)
    ensures var m := s.sessions[h];
            && m.ContextAborted() && !m.Reading() && !m.tasks.accepting && m.tasks.pending == [] && m.feed.queue == []
            && m.retirement.Some? && (m.feed.drain.NotDraining? <==> DrainPump !in m.pumps)
            && !m.feed.drain.AwaitingCapacity?
    ensures SlotOk(h, s.sessions[h], s.pool.work, cfg.tasks)
    ensures forall w :: w in s.pool.work && s.pool.work[w].session == h ==>
              !s.pool.work[w].phase.Waiting? && !s.pool.work[w].phase.Queued?
  {
    hide Accounted, F.Ok, RetirementOk;
    SessionIsOk(s, cfg, h);
    AdmissionIsWork(s, cfg, h);
    PoolIsOk(s, cfg);
    forall w | w in s.pool.work && s.pool.work[w].session == h
      ensures !s.pool.work[w].phase.Waiting? && !s.pool.work[w].phase.Queued?
    {
      NeitherWaitsNorQueues(h, s.sessions[h], s.pool.work, s.sessions, cfg, w);
    }
    hide SlotOk, Pools.Inv, NoAbortedWaiters;
  }

  lemma NeitherWaitsNorQueues(h: Handle, m: Session, work: map<WorkId, Work>, sessions: map<Handle, Session>,
                              cfg: Config, w: WorkId)
    requires SlotOk(h, m, work, cfg.tasks) && NoAbortedWaiters(work, sessions)
    requires h in sessions && sessions[h] == m && m.ContextAborted() && m.tasks.pending == []
    requires w in work && work[w].session == h
    ensures !work[w].phase.Waiting? && !work[w].phase.Queued?
  {
    assert work[w].kind.Task? ==> (w in m.tasks.pending <==> QueuedIn(work, w, h));
    assert work[w].kind.Admission? ==> AdmissionOf(work, w, h);
  }

  // ----- one own step -----

  /** The session is where it was, and nearer to leaving. */
  ghost predicate Nearer(s: State, t: State, h: Handle)
    requires h in s.sessions
  {
    && t.outstanding == s.outstanding && t.sessions.Keys == s.sessions.Keys
    && h in t.sessions && t.sessions[h].finalized
    && Left(t, h) < Left(s, h)
  }

  lemma PutSteps(work: map<WorkId, Work>, w: WorkId, phase: Phase, h: Handle)
    requires w in work
    ensures Sum(SetPhase(work, w, phase), StepsOf(h)) ==
            Sum(work, StepsOf(h)) - StepsOf(h)(work[w]) + StepsOf(h)(work[w].(phase := phase))
    ensures StepsOf(h)(work[w]) <= Sum(work, StepsOf(h))
  {
    SumPut(work, StepsOf(h), w, work[w].(phase := phase));
  }

  lemma BeginIsNearer(s: State, cfg: Config, h: Handle, w: WorkId)
    requires Ending(s, cfg, h) && AsksBudget(s, w) && s.pool.work[w].session == h
    ensures Nearer(s, Begin(s, cfg, w), h)
  {
    hide Accounted;
    EndingFacts(s, cfg, h);
    PutSteps(s.pool.work, w, Returned, h);
    hide SlotOk, Sum;
  }

  lemma ReturnIsNearer(s: State, cfg: Config, h: Handle, w: WorkId)
    requires Ending(s, cfg, h) && w in s.pool.work && s.pool.work[w].session == h && s.pool.work[w].phase.Running?
    ensures 0 < s.pool.budget.running
    ensures Nearer(s, s.(pool := Leave(s.pool, cfg.handlers, w)), h)
  {
    hide Accounted, Leave;
    EndingFacts(s, cfg, h);
    PoolIsOk(s, cfg);
    ReturnedSteps(s.pool, cfg.handlers, h, w);
    hide SlotOk, Sum, Pools.Inv;
  }

  lemma ReturnedSteps(p: Pool, limits: B.Limits, h: Handle, w: WorkId)
    requires Pools.Inv(p, limits) && w in p.work && p.work[w].phase.Running?
    requires forall x :: x in p.work && p.work[x].session == h ==> !p.work[x].phase.Waiting?
    ensures 0 < p.budget.running
    ensures Sum(Leave(p, limits, w).work, StepsOf(h)) == Sum(p.work, StepsOf(h)) - if p.work[w].session == h then 1 else 0
  {
    hide Leave, SettledOnce, B.Budget.Leave;
    LeaveGrantsHead(p, limits, w);
    PutSteps(p.work, w, Returned, h);
    if p.budget.waiters != [] {
      var head := p.budget.waiters[0];
      assert head in p.budget.waiters;
      PutSteps(SetPhase(p.work, w, Returned), head, Phase.Running, h);
    }
    hide Sum, Counted;
  }

  lemma SettleSteps(p: Pool, limits: B.Limits, h: Handle, w: WorkId)
    requires Pools.Inv(p, limits) && w in p.work
    ensures Sum(Settle(p, w).work, StepsOf(h)) == Sum(p.work, StepsOf(h)) - StepsOf(h)(p.work[w])
  {
    assert |p.work| > 0;
    SumDrop(p.work, StepsOf(h), w);
    hide SettledOnce, Sum;
  }

  lemma FinishIsNearer(s: State, cfg: Config, h: Handle, w: WorkId)
    requires Ending(s, cfg, h) && HasWork(s, w, Task, Returned) && s.pool.work[w].session == h
    requires 0 < s.sessions[h].tasks.active
    ensures Nearer(s, Finish(s, cfg, h, w), h)
  {
    hide Accounted, Settle;
    EndingFacts(s, cfg, h);
    PoolIsOk(s, cfg);
    SettleSteps(s.pool, cfg.handlers, h, w);
    hide SlotOk, Sum, Pools.Inv;
  }

  lemma AdmissionIsNearer(s: State, cfg: Config, h: Handle, w: WorkId)
    requires Ending(s, cfg, h) && HasWork(s, w, Admission, Returned) && s.pool.work[w].session == h
    ensures Nearer(s, SettleAdmission(s, h, w), h)
  {
    hide Accounted, Settle;
    PoolIsOk(s, cfg);
    SettleSteps(s.pool, cfg.handlers, h, w);
    hide SlotOk, Sum, Pools.Inv;
  }

  lemma PumpIsNearer(s: State, cfg: Config, h: Handle, pump: Pump)
    requires Ending(s, cfg, h) && pump in s.sessions[h].pumps
    ensures Nearer(s, EndPump(s, h, pump), h)
  {
    hide Accounted, Sum;
    var pumps := s.sessions[h].pumps;
    assert |pumps - {pump}| == |pumps| - 1;
  }

  lemma DrainEndIsNearer(s: State, cfg: Config, h: Handle)
    requires Ending(s, cfg, h) && DrainPump in s.sessions[h].pumps
    ensures Nearer(s, Put(s, h, EndDrain(s.sessions[h])), h)
  {
    hide Accounted, Sum;
    var pumps := s.sessions[h].pumps;
    assert |pumps - {DrainPump}| == |pumps| - 1;
  }

  lemma DrainIsNearer(s: State, cfg: Config, h: Handle)
    requires Ending(s, cfg, h) && !s.sessions[h].feed.drain.NotDraining?
    ensures DrainPump in s.sessions[h].pumps
    ensures s.sessions[h].feed.drain.Resuming? ==> Nearer(s, ResumeDrain(s, cfg, h), h)
    ensures Nearer(s, ContinueDrain(s, cfg, h), h)
  {
    hide Accounted, Submit, Nearer, SlotOk, EndDrain;
    EndingFacts(s, cfg, h);
    DrainEndIsNearer(s, cfg, h);
  }

  lemma ObservedIsNearer(s: State, cfg: Config, h: Handle, what: Observation)
    requires Ending(s, cfg, h) && s.sessions[h].retirement.Some? && !Seen(s.sessions[h].retirement.value, what)
    ensures Nearer(s, Put(s, h, Observe(s.sessions[h], what)), h)
  {
    hide Accounted, Sum;
  }

  /** Every own step of a finalized session, whichever it is, brings it nearer to leaving. */
  lemma OwnStepIsNearer(s: State, cfg: Config, h: Handle, e: Event)
    requires cfg.Valid() && Ending(s, cfg, h) && Enabled(s, cfg, e) && Own(s, e, h)
    ensures Nearer(s, Step(s, cfg, e), h)
  {
    hide Accounted, Nearer, Finish, ResumeDrain, ContinueDrain, Begin, Leave, SettleAdmission, Observe, SlotOk;
    EndingFacts(s, cfg, h);
    match e {
      case TaskBegan(w) => BeginIsNearer(s, cfg, h, w);
      case CallReturned(w) => ReturnIsNearer(s, cfg, h, w);
      case TaskSettled(w) => FinishIsNearer(s, cfg, h, w);
      case AdmissionWorkSettled(w) => AdmissionIsNearer(s, cfg, h, w);
      case PumpEnded(_, pump) => PumpIsNearer(s, cfg, h, pump);
      case DrainResumed(_) => DrainIsNearer(s, cfg, h);
      case DrainContinued(_) => DrainIsNearer(s, cfg, h);
      case DatagramRead(_, _) => PumpIsNearer(s, cfg, h, DatagramPump);
      case StreamRead(_, kind, _, _) => PumpIsNearer(s, cfg, h, StreamPump(kind));
      case Observed(_, what) => ObservedIsNearer(s, cfg, h, what);
      case _ =>
    }
  }

  // ----- some own step is always possible -----

  lemma WorkCanMove(s: State, cfg: Config, h: Handle, w: WorkId) returns (e: Event)
    requires cfg.Valid() && Ending(s, cfg, h) && w in s.pool.work && s.pool.work[w].session == h
    ensures Enabled(s, cfg, e) && Own(s, e, h)
  {
    hide Accounted;
    EndingFacts(s, cfg, h);
    PoolIsOk(s, cfg);
    assert w < s.pool.next;
    var work := s.pool.work[w];
    if work.phase.Started? {
      e := TaskBegan(w);
    } else if work.phase.Running? {
      SumWitness(s.pool.work, RunningWeight, w);
      e := CallReturned(w);
    } else if work.kind.Task? {
      SumWitness(s.pool.work, ActiveIn(h), w);
      e := TaskSettled(w);
    } else {
      e := AdmissionWorkSettled(w);
    }
  }

  lemma PumpCanEnd(s: State, cfg: Config, h: Handle) returns (e: Event)
    requires cfg.Valid() && Ending(s, cfg, h) && s.sessions[h].pumps != {}
    ensures Enabled(s, cfg, e) && Own(s, e, h)
  {
    hide Accounted;
    EndingFacts(s, cfg, h);
    hide SlotOk;
    var pump :| pump in s.sessions[h].pumps;
    if pump != DrainPump {
      e := PumpEnded(h, pump);
    } else if s.sessions[h].feed.drain.Resuming? {
      e := DrainResumed(h);
    } else {
      e := DrainContinued(h);
    }
  }

  lemma CanSeeTheRest(s: State, cfg: Config, h: Handle) returns (e: Event)
    requires cfg.Valid() && Ending(s, cfg, h) && s.sessions[h].pumps == {} && !CanRetire(s.sessions[h])
    requires forall w :: w in s.pool.work ==> s.pool.work[w].session != h
    ensures Enabled(s, cfg, e) && Own(s, e, h)
  {
    hide Accounted;
    EndingFacts(s, cfg, h);
    var m := s.sessions[h];
    SumZero(s.pool.work, ActiveIn(h));
    assert m.admission.Some? ==> AdmissionOf(s.pool.work, m.admission.value, h);
    if !m.retirement.value.admissionSeen {
      e := Observed(h, AdmissionSettled);
    } else if !m.retirement.value.idleSeen {
      e := Observed(h, SchedulerIdle);
    } else {
      e := Observed(h, PumpsSettled);
    }
  }

  /** Until it can retire, a finalized session always has an own step to take: it never waits for another
      session. */
  lemma NeverStuck(s: State, cfg: Config, h: Handle) returns (e: Event)
    requires cfg.Valid() && Ending(s, cfg, h) && !CanRetire(s.sessions[h])
    ensures Enabled(s, cfg, e) && Own(s, e, h)
  {
    hide Enabled, Own, Accounted, CanRetire;
    if w :| w in s.pool.work && s.pool.work[w].session == h {
      e := WorkCanMove(s, cfg, h, w);
    } else if s.sessions[h].pumps != {} {
      e := PumpCanEnd(s, cfg, h);
    } else {
      e := CanSeeTheRest(s, cfg, h);
    }
  }

  // ----- nobody can set it back -----

  /** The other steps of the system: the session stays, finalized, and has no more left than before. */
  ghost predicate NotSetBack(s: State, t: State, h: Handle)
    requires h in s.sessions
  {
    && h in t.sessions && t.sessions[h].finalized
    && Left(t, h) <= Left(s, h)
  }

  /** All work of the session in `b` was in `a` already, and no earlier in its phases. */
  ghost predicate NoMore(a: map<WorkId, Work>, b: map<WorkId, Work>, h: Handle) {
    forall w :: w in b && b[w].session == h ==>
      w in a && a[w].session == h && PhaseWeight(b[w].phase) <= PhaseWeight(a[w].phase)
  }

  lemma {:induction false} NoMoreSteps(a: map<WorkId, Work>, b: map<WorkId, Work>, h: Handle)
    requires NoMore(a, b, h)
    ensures Sum(b, StepsOf(h)) <= Sum(a, StepsOf(h))
    decreases |b|
  {
    if b != map[] {
      var w :| w in b;
      SumDrop(b, StepsOf(h), w);
      if w in a {
        SumDrop(a, StepsOf(h), w);
        NoMoreSteps(a - {w}, b - {w}, h);
      } else {
        NoMoreSteps(a, b - {w}, h);
      }
    }
  }

  /** What a step that is not its own may do to a finalized session. */
  ghost predicate Keeps(s: State, t: State, h: Handle) {
    && h in s.sessions && h in t.sessions
    && KeepsEnding(s.sessions[h], t.sessions[h])
    && NoMore(s.pool.work, t.pool.work, h)
  }

  ghost predicate KeepsEnding(m: Session, m': Session) {
    m.finalized && m'.finalized && m'.pumps <= m.pumps && m'.retirement == m.retirement
  }

  lemma KeptIsNotSetBack(s: State, t: State, h: Handle)
    requires Keeps(s, t, h)
    ensures NotSetBack(s, t, h)
  {
    NoMoreSteps(s.pool.work, t.pool.work, h);
    SubsetSize(t.sessions[h].pumps, s.sessions[h].pumps);
    hide Sum, NoMore;
  }

  lemma KeepsTrans(s: State, t: State, u: State, h: Handle)
    requires Keeps(s, t, h) && Keeps(t, u, h)
    ensures Keeps(s, u, h)
  {
  }

  lemma NoMoreTrans(a: map<WorkId, Work>, b: map<WorkId, Work>, c: map<WorkId, Work>, h: Handle)
    requires NoMore(a, b, h) && NoMore(b, c, h)
    ensures NoMore(a, c, h)
  {
  }

  // ----- the moves of the pool -----

  lemma PhaseNoMore(work: map<WorkId, Work>, w: WorkId, phase: Phase, h: Handle)
    requires w in work ==> PhaseWeight(phase) <= PhaseWeight(work[w].phase)
    ensures NoMore(work, SetPhase(work, w, phase), h)
  {
  }

  lemma LeaveNoMore(p: Pool, limits: B.Limits, w: WorkId, h: Handle)
    requires Pools.Inv(p, limits) && w in p.work && p.work[w].phase.Running?
    ensures 0 < p.budget.running
    ensures NoMore(p.work, Leave(p, limits, w).work, h)
  {
    hide Leave, SettledOnce, B.Budget.Leave, NoMore, Sum;
    LeaveGrantsHead(p, limits, w);
    var returned := SetPhase(p.work, w, Returned);
    PhaseNoMore(p.work, w, Returned, h);
    if p.budget.waiters != [] {
      var head := p.budget.waiters[0];
      assert head in p.budget.waiters;
      PhaseNoMore(returned, head, Phase.Running, h);
      NoMoreTrans(p.work, returned, SetPhase(returned, head, Phase.Running), h);
    }
  }

  lemma SettleNoMore(p: Pool, w: WorkId, h: Handle)
    ensures NoMore(p.work, Settle(p, w).work, h)
  {
  }

  lemma {:induction false} SettleAllNoMore(p: Pool, ws: seq<WorkId>, h: Handle)
    ensures NoMore(p.work, SettleAll(p, ws).work, h)
    decreases |ws|
  {
    if ws != [] {
      SettleNoMore(p, ws[0], h);
      SettleAllNoMore(Settle(p, ws[0]), ws[1..], h);
      hide Settle;
      NoMoreTrans(p.work, Settle(p, ws[0]).work, SettleAll(p, ws).work, h);
    }
  }

  lemma ChargeNoMore(p: Pool, k: Handle, kind: Kind, bytes: nat, phase: Phase, h: Handle)
    requires k != h
    ensures NoMore(p.work, Charge(p, k, kind, bytes, phase).work, h)
  {
  }

  lemma BouncedNoMore(p: Pool, k: Handle, kind: Kind, h: Handle)
    requires k != h
    ensures forall bytes: nat :: NoMore(p.work, Settle(Charge(p, k, kind, bytes, Started), p.next).work, h)
  {
  }

  lemma AbandonNoMore(s: State, cfg: Config, k: Handle, h: Handle)
    requires Pools.Inv(s.pool, cfg.handlers)
    ensures NoMore(s.pool.work, AbandonSession(s, cfg, k).work, h)
  {
    hide Pools.Inv, AbandonAll, WaitersOf, NoMore;
    var ws := WaitersOf(s.pool.budget.waiters, s.pool.work, k);
    AbandonAllEffect(s.pool, cfg.handlers, ws);
    AbandonedNoMore(s.pool.work, AbandonAll(s.pool, cfg.handlers, ws).work, ws, h);
  }

  lemma AbandonedNoMore(a: map<WorkId, Work>, b: map<WorkId, Work>, ws: seq<WorkId>, h: Handle)
    requires SameCharges(a, b)
    requires forall w :: w in b && w !in ws ==> b[w] == a[w]
    requires forall w :: w in b && w in ws && b[w] != a[w] ==> b[w].phase.Returned?
    ensures NoMore(a, b, h)
  {
  }

  lemma EmptiedNoMore(s: State, cfg: Config, k: Handle, h: Handle)
    requires Pools.Inv(s.pool, cfg.handlers) && k in s.sessions
    ensures NoMore(s.pool.work, Emptied(s, cfg, k).work, h)
  {
    hide Pools.Inv, AbandonSession, SettleAll, NoMore;
    AbandonNoMore(s, cfg, k, h);
    SettleAllNoMore(AbandonSession(s, cfg, k), s.sessions[k].tasks.pending, h);
    NoMoreTrans(s.pool.work, AbandonSession(s, cfg, k).work, Emptied(s, cfg, k).work, h);
  }

  // ----- the steps of other sessions and of the server -----

  lemma SubmitKeeps(s: State, cfg: Config, k: Handle, bytes: nat, h: Handle)
    requires k in s.sessions && k != h && h in s.sessions && s.sessions[h].finalized
    ensures Keeps(s, Submit(s, cfg, k, bytes), h)
  {
    hide Charge, Settle, NoMore;
    var next := s.pool.next;
    ChargeNoMore(s.pool, k, Task, bytes, Started, h);
    ChargeNoMore(s.pool, k, Task, bytes, Queued, h);
    BouncedNoMore(s.pool, k, Task, h);
    NoMoreItself(s.pool.work, h);
  }

  lemma NoMoreItself(work: map<WorkId, Work>, h: Handle)
    ensures NoMore(work, work, h)
  {
  }

  lemma FinalizeKeeps(s: State, cfg: Config, k: Handle, h: Handle)
    requires Pools.Inv(s.pool, cfg.handlers) && k in s.sessions && h in s.sessions && s.sessions[h].finalized
    ensures Keeps(s, Finalize(s, cfg, k), h)
  {
    hide Pools.Inv, NoMore, Emptied;
    NoMoreItself(s.pool.work, h);
    if s.sessions[k].finalized {
      FinalizeTwice(s, cfg, k);
    } else {
      FinalizeIsEmptied(s, cfg, k);
      EmptiedNoMore(s, cfg, k, h);
    }
    hide Finalize;
  }

  lemma ForceKeeps(s: State, cfg: Config, k: Handle, h: Handle)
    requires Pools.Inv(s.pool, cfg.handlers) && k in s.sessions && h in s.sessions && s.sessions[h].finalized
    ensures Keeps(s, Force(s, cfg, k), h)
  {
    hide Pools.Inv, NoMore, Emptied, Force;
    ForceIsEmptied(s, cfg, k);
    EmptiedNoMore(s, cfg, k, h);
  }

  lemma AcceptKeeps(s: State, cfg: Config, k: Handle, o: Offer, h: Handle)
    requires cfg.Valid() && Accounted(s, cfg) && k !in s.sessions && h in s.sessions && s.sessions[h].finalized
    ensures Keeps(s, Accept(s, cfg, k, o), h)
  {
    hide Accounted, IP.Acquire, IP.Release, NoMore, Charge, Settle, Enter, Finalize, Pools.Inv;
    NoMoreItself(s.pool.work, h);
    BouncedNoMore(s.pool, k, Admission, h);
    match Judge(s, cfg, o) {
      case Admitted =>
        if o.aborted {
          BouncedIsOk(s, cfg, k, Admission, 0);
          var t := Added(s, cfg, k, o).(pool := Bounced(s.pool, k), sessions := s.sessions[k := NewSession(o)]);
          AcceptIsFinalize(s, cfg, k, o, t);
          FinalizeKeeps(t, cfg, k, h);
          KeepsTrans(s, t, Finalize(t, cfg, k), h);
        } else {
          AdmittedNoMore(s.pool, cfg.handlers, k, h);
        }
      case _ =>
    }
  }

  lemma AdmittedNoMore(p: Pool, limits: B.Limits, k: Handle, h: Handle)
    requires k != h
    ensures NoMore(p.work, Enter(Charge(p, k, Admission, 0, Started), limits, p.next, false).work, h)
  {
  }

  lemma FinishKeeps(s: State, cfg: Config, k: Handle, w: WorkId, h: Handle)
    requires Accounted(s, cfg) && k in s.sessions && h in s.sessions && s.sessions[h].finalized
    requires w in s.pool.work && 0 < s.sessions[k].tasks.active
    requires s.pool.work[w] == Work(k, Task, s.pool.work[w].bytes, Returned)
    ensures Keeps(s, Finish(s, cfg, k, w), h)
  {
    hide Accounted, Finish, Freed, Settle, Start, NoMore, SlotOk;
    FinishIsPutAndPool(s, cfg, k, w);
    FreedKeepsEnding(s.sessions[k], cfg);
    AdmissionIsWork(s, cfg, k);
    var settled := Settle(s.pool, w);
    SettleNoMore(s.pool, w, h);
    if s.sessions[k].tasks.pending != [] {
      var next := s.sessions[k].tasks.pending[0];
      PendingStarts(s, cfg, k, w);
      NoMoreTrans(s.pool.work, settled.work, Start(settled, next).work, h);
    }
  }

  lemma FreedKeepsEnding(m: Session, cfg: Config)
    requires 0 < m.tasks.active
    ensures m.finalized ==> KeepsEnding(m, Freed(m, cfg))
  {
  }

  lemma PendingStarts(s: State, cfg: Config, k: Handle, w: WorkId)
    requires k in s.sessions && SlotOk(k, s.sessions[k], s.pool.work, cfg.tasks) && s.sessions[k].tasks.pending != []
    ensures forall h :: NoMore(Settle(s.pool, w).work, Start(Settle(s.pool, w), s.sessions[k].tasks.pending[0]).work, h)
  {
    var next := s.sessions[k].tasks.pending[0];
    assert next in s.sessions[k].tasks.pending;
    assert QueuedIn(s.pool.work, next, k);
    hide SlotOk;
  }

  lemma AbortKeeps(s: State, cfg: Config, k: Handle, h: Handle)
    requires Accounted(s, cfg) && k in s.sessions && h in s.sessions && s.sessions[h].finalized
    ensures Keeps(s, AbortSignal(s, cfg, k), h)
  {
    hide Accounted, Finalize, ReleaseAll, NoMore, Pools.Inv;
    PoolIsOk(s, cfg);
    AbortIsMarked(s, cfg, k);
    NoMoreItself(s.pool.work, h);
    var marked := Marked(s, k);
    assert Keeps(s, marked, h);
    FinalizeKeeps(marked, cfg, k, h);
    var t := Finalize(marked, cfg, k);
    KeepsTrans(s, marked, t, h);
    ReleaseAllKeeps(t, k, h);
    KeepsTrans(s, t, ReleaseAll(t, k), h);
  }

  lemma ReleaseAllKeeps(s: State, k: Handle, h: Handle)
    requires k in s.sessions && h in s.sessions && s.sessions[h].finalized
    ensures Keeps(s, ReleaseAll(s, k), h)
  {
    hide StreamsOf;
  }

  lemma {:induction false} StopIntakeAllKeeps(s: State, order: seq<Handle>, h: Handle)
    requires h in s.sessions && s.sessions[h].finalized
    ensures Keeps(s, StopIntakeAll(s, order), h)
    decreases |order|
  {
    hide NoMore;
    NoMoreItself(s.pool.work, h);
    if order != [] {
      var t := if order[0] in s.sessions then StopIntake(s, order[0]) else s;
      assert Keeps(s, t, h);
      StopIntakeAllKeeps(t, order[1..], h);
      KeepsTrans(s, t, StopIntakeAll(s, order), h);
    }
  }

  lemma {:induction false} ForceAllKeeps(s: State, cfg: Config, order: seq<Handle>, h: Handle)
    requires Accounted(s, cfg) && h in s.sessions && s.sessions[h].finalized
    requires forall k :: k in order ==> Forceable(s, k)
    ensures Keeps(s, ForceAll(s, cfg, order), h)
    decreases |order|
  {
    hide Accounted, Force, NoMore, Pools.Inv, Forceable;
    NoMoreItself(s.pool.work, h);
    if order != [] {
      assert order[0] in order;
      ForceableStays(s, cfg, order[0], order);
      PoolIsOk(s, cfg);
      ForceKeeps(s, cfg, order[0], h);
      ForceKeepsAccounts(s, cfg, order[0]);
      var t := Force(s, cfg, order[0]);
      assert forall k :: k in order[1..] ==> k in order;
      ForceAllKeeps(t, cfg, order[1..], h);
      KeepsTrans(s, t, ForceAll(s, cfg, order), h);
    }
  }

  lemma {:induction false} FinalizeAllKeeps(s: State, cfg: Config, order: seq<Handle>, h: Handle)
    requires Accounted(s, cfg) && h in s.sessions && s.sessions[h].finalized
    ensures Keeps(s, FinalizeAll(s, cfg, order), h)
    decreases |order|
  {
    hide Accounted, Finalize, NoMore, Pools.Inv;
    NoMoreItself(s.pool.work, h);
    if order != [] {
      var t := s;
      if order[0] in s.sessions {
        PoolIsOk(s, cfg);
        FinalizeKeeps(s, cfg, order[0], h);
        FinalizeKeepsAccounts(s, cfg, order[0]);
        t := Finalize(s, cfg, order[0]);
      }
      FinalizeAllKeeps(t, cfg, order[1..], h);
      KeepsTrans(s, t, FinalizeAll(s, cfg, order), h);
    }
  }

  lemma ServerKeeps(s: State, cfg: Config, e: Srv.Event, order: seq<Handle>, h: Handle)
    requires Accounted(s, cfg) && Srv.Enabled(s.server, e) && Walks(s, e, order)
    requires h in s.sessions && s.sessions[h].finalized
    ensures Keeps(s, MoveServer(s, cfg, e, order), h)
  {
    hide Accounted, StopIntakeAll, ForceAll, FinalizeAll, NoMore, Forceable, Srv.Step;
    NoMoreItself(s.pool.work, h);
    match e {
      case StopCalled(_) =>
        if Srv.Stops(s.server) {
          StopIntakeAllKeeps(s, order, h);
          StopMakesForceable(s, cfg, order);
          var t := StopIntakeAll(s, order);
          ForceAllKeeps(t, cfg, order, h);
          KeepsTrans(s, t, ForceAll(t, cfg, order), h);
        }
      case DrainEnded =>
        DrainingIsForceable(s, cfg);
        ForceAllKeeps(s, cfg, order, h);
      case DriverStopped(_) => FinalizeAllKeeps(s, cfg, order, h);
      case _ =>
    }
  }

  /** No step of any other session, of the server or of the environment sets a finalized session back. */
  lemma NobodySetsItBack(s: State, cfg: Config, h: Handle, e: Event)
    requires cfg.Valid() && Ending(s, cfg, h) && Enabled(s, cfg, e) && !Own(s, e, h)
    ensures NotSetBack(s, Step(s, cfg, e), h)
  {
    OtherStepKeeps(s, cfg, h, e);
    hide Ending, Step, Enabled, Own, Keeps, NotSetBack;
    KeptIsNotSetBack(s, Step(s, cfg, e), h);
  }

  lemma OtherStepKeeps(s: State, cfg: Config, h: Handle, e: Event)
    requires cfg.Valid() && Ending(s, cfg, h) && Enabled(s, cfg, e) && !Own(s, e, h)
    ensures Keeps(s, Step(s, cfg, e), h)
  {
    hide Accounted, Accept, Submit, Finish, AbortSignal, MoveServer, Leave, Settle, NoMore, SlotOk, Pools.Inv;
    hide AbandonSession, ReadDatagram, ResumeDrain, ReadStream, Begin, IP.Release;
    EndingFacts(s, cfg, h);
    PoolIsOk(s, cfg);
    NoMoreItself(s.pool.work, h);
    match e {
      case Offered(k, offer) => AcceptKeeps(s, cfg, k, offer, h);
      case AdmissionTimedOut(k) => AbandonNoMore(s, cfg, k, h);
      case DatagramRead(k, arrival) => ReadDatagramKeeps(s, cfg, k, arrival, h);
      case DrainResumed(k) => ResumeDrainKeeps(s, cfg, k, h);
      case StreamRead(k, kind, id, aborted) => ReadStreamKeeps(s, cfg, k, kind, id, aborted, h);
      case TaskBegan(w) => BeginKeeps(s, cfg, w, h);
      case CallReturned(w) => LeaveNoMore(s.pool, cfg.handlers, w, h);
      case TaskSettled(w) => FinishKeeps(s, cfg, s.pool.work[w].session, w, h);
      case AdmissionWorkSettled(w) => SettleNoMore(s.pool, w, h);
      case SignalAborted(k) => AbortKeeps(s, cfg, k, h);
      case ServerMoved(move, order) => ServerKeeps(s, cfg, move, order, h);
      case _ =>
    }
  }

  lemma ReadDatagramKeeps(s: State, cfg: Config, k: Handle, arrival: Arrival, h: Handle)
    requires k in s.sessions && 1 <= cfg.queueSize && |s.sessions[k].feed.queue| <= cfg.queueSize
    requires k != h && h in s.sessions && s.sessions[h].finalized
    ensures Keeps(s, ReadDatagram(s, cfg, k, arrival), h)
  {
    hide NoMore, F.Judge, F.Offered, F.OfferedBytes;
    NoMoreItself(s.pool.work, h);
  }

  lemma ResumeDrainKeeps(s: State, cfg: Config, k: Handle, h: Handle)
    requires k in s.sessions && k != h && h in s.sessions && s.sessions[h].finalized
    ensures Keeps(s, ResumeDrain(s, cfg, k), h)
  {
    hide NoMore, Submit;
    NoMoreItself(s.pool.work, h);
    var m := s.sessions[k];
    if m.feed.queue != [] {
      SubmitKeeps(Put(s, k, m.(feed := F.Taken(m.feed))), cfg, k, m.feed.queue[0].size, h);
    }
  }

  lemma ReadStreamKeeps(s: State, cfg: Config, k: Handle, kind: StreamKind, id: StreamId, aborted: bool, h: Handle)
    requires k in s.sessions && k != h && h in s.sessions && s.sessions[h].finalized
    ensures Keeps(s, ReadStream(s, cfg, k, kind, id, aborted), h)
  {
    hide NoMore, Submit;
    NoMoreItself(s.pool.work, h);
    SubmitKeeps(if aborted then s else Track(s, k, kind, id), cfg, k, 0, h);
  }

  lemma BeginKeeps(s: State, cfg: Config, w: WorkId, h: Handle)
    requires AsksBudget(s, w) && h in s.sessions && s.sessions[h].finalized
    ensures Keeps(s, Begin(s, cfg, w), h)
  {
  }

  // ----- over whole runs -----

  /** How many of the events from `i` on, up to `k`, are own steps of the session. */
  function OwnSteps(states: seq<State>, events: seq<Event>, i: nat, k: nat, h: Handle): nat
    requires i <= k <= |events| <= |states|
  {
    if i == k then 0
    else OwnSteps(states, events, i, k - 1, h) + if Own(states[k - 1], events[k - 1], h) then 1 else 0
  }

  /** In every run, however the environment interleaves: from the moment a session is finalized to any
      moment at which it still holds its slots, it has taken at most as many own steps as it had left
      then, and what it has left has fallen by at least that many. */
  lemma {:induction false} WindsDown(cfg: Config, states: seq<State>, events: seq<Event>, i: nat, k: nat, h: Handle)
    requires IsRun(cfg, states, events) && i <= k < |states|
    requires h in states[i].outstanding && h in states[i].sessions && states[i].sessions[h].finalized
    requires h in states[k].outstanding
    ensures k <= |events|
    ensures h in states[k].sessions && states[k].sessions[h].finalized
    ensures Left(states[k], h) + OwnSteps(states, events, i, k, h) <= Left(states[i], h)
    decreases k
  {
    hide IsRun, Left, Own, Accounted, Enabled, Step;
    RunLength(cfg, states, events);
    if i < k {
      KnownLater(cfg, states, events, i, k - 1, h);
      OutstandingBefore(cfg, states, events, k - 1, h);
      WindsDown(cfg, states, events, i, k - 1, h);
      EveryRunIsAccounted(cfg, states, events, k - 1);
      RunEnables(cfg, states, events, k - 1);
      StepWindsDown(states[k - 1], cfg, h, events[k - 1]);
    }
  }

  lemma StepWindsDown(s: State, cfg: Config, h: Handle, e: Event)
    requires cfg.Valid() && Ending(s, cfg, h) && Enabled(s, cfg, e)
    ensures var t := Step(s, cfg, e);
            && h in t.sessions && t.sessions[h].finalized
            && Left(t, h) + (if Own(s, e, h) then 1 else 0) <= Left(s, h)
  {
    hide Left, Own, Accounted, Enabled, Step;
    if Own(s, e, h) {
      OwnStepIsNearer(s, cfg, h, e);
    } else {
      NobodySetsItBack(s, cfg, h, e);
    }
  }

  lemma OutstandingBefore(cfg: Config, states: seq<State>, events: seq<Event>, k: nat, h: Handle)
    requires IsRun(cfg, states, events) && k < |events|
    requires h in states[k].sessions && h in states[k + 1].outstanding
    ensures h in states[k].outstanding
  {
    hide IsRun;
    RunStep(cfg, states, events, k);
  }

  lemma RunLength(cfg: Config, states: seq<State>, events: seq<Event>)
    requires IsRun(cfg, states, events)
    ensures |states| == |events| + 1 && cfg.Valid()
  {
    hide Step, Enabled;
  }

  lemma RunEnables(cfg: Config, states: seq<State>, events: seq<Event>, k: nat)
    requires IsRun(cfg, states, events) && k < |events|
    ensures Enabled(states[k], cfg, events[k]) && states[k + 1] == Step(states[k], cfg, events[k])
  {
    hide Step, Enabled;
  }

  /** A session that is known stays known. */
  lemma {:induction false} KnownLater(cfg: Config, states: seq<State>, events: seq<Event>, i: nat, k: nat, h: Handle)
    requires IsRun(cfg, states, events) && i <= k < |states| && h in states[i].sessions
    ensures h in states[k].sessions
    decreases k
  {
    hide IsRun;
    RunLength(cfg, states, events);
    if i < k {
      KnownLater(cfg, states, events, i, k - 1, h);
      RunStep(cfg, states, events, k - 1);
    }
  }

  /** In every reachable state a finalized session that still holds its slots can retire or has an own
      step to take. */
  lemma NeverStuckInARun(cfg: Config, states: seq<State>, events: seq<Event>, k: nat, h: Handle)
    requires IsRun(cfg, states, events) && k < |states| && h in states[k].outstanding
    requires h in states[k].sessions && states[k].sessions[h].finalized
    ensures Enabled(states[k], cfg, Retired(h, 0)) || exists e :: Enabled(states[k], cfg, e) && Own(states[k], e, h)
  {
    hide IsRun, Enabled, Accounted, Own, CanRetire;
    EveryRunIsAccounted(cfg, states, events, k);
    RunLength(cfg, states, events);
    if CanRetire(states[k].sessions[h]) {
      RetireIsEnabled(states[k], cfg, h);
    } else {
      var e := NeverStuck(states[k], cfg, h);
    }
  }

  lemma RetireIsEnabled(s: State, cfg: Config, h: Handle)
    requires h in s.sessions && CanRetire(s.sessions[h])
    ensures Enabled(s, cfg, Retired(h, 0))
  {
    hide CanRetire;
  }

  // ----- giving everything back -----

  ghost function Follow(s: State, cfg: Config, es: seq<Event>): Option<State>
    requires cfg.Valid()
    decreases |es|
  {
    if es == [] then Some(s)
    else if Enabled(s, cfg, es[0]) then Follow(Step(s, cfg, es[0]), cfg, es[1..])
    else None
  }

  lemma {:induction false} FollowBoth(s: State, cfg: Config, es: seq<Event>, more: seq<Event>)
    requires cfg.Valid() && Follow(s, cfg, es).Some?
    ensures Follow(s, cfg, es + more) == Follow(Follow(s, cfg, es).value, cfg, more)
    decreases |es|
  {
    hide Enabled, Step;
    if es == [] {
      assert es + more == more;
    } else {
      assert (es + more)[1..] == es[1..] + more;
      FollowBoth(Step(s, cfg, es[0]), cfg, es[1..], more);
    }
  }

  lemma FollowOne(s: State, cfg: Config, e: Event, more: seq<Event>)
    requires cfg.Valid() && Enabled(s, cfg, e)
    ensures Follow(s, cfg, [e] + more) == Follow(Step(s, cfg, e), cfg, more)
  {
    hide Enabled, Step;
    assert ([e] + more)[1..] == more;
  }

  /** Its own steps alone take a finalized session out, and nobody else. */
  lemma {:induction false} CanLeave(s: State, cfg: Config, h: Handle) returns (es: seq<Event>)
    requires cfg.Valid() && Ending(s, cfg, h)
    ensures Follow(s, cfg, es).Some?
    ensures var t := Follow(s, cfg, es).value; Accounted(t, cfg) && t.outstanding == s.outstanding - {h}
    decreases Left(s, h)
  {
    hide Accounted, Enabled, Step, Own, Left, Follow;
    if CanRetire(s.sessions[h]) {
      RetiresAtOnce(s, cfg, h);
      es := [Retired(h, 0)];
    } else {
      var e := NeverStuck(s, cfg, h);
      OwnStepIsNearer(s, cfg, h, e);
      StepKeepsAccounts(s, cfg, e);
      var rest := CanLeave(Step(s, cfg, e), cfg, h);
      FollowOne(s, cfg, e, rest);
      es := [e] + rest;
    }
  }

  lemma RetiresAtOnce(s: State, cfg: Config, h: Handle)
    requires cfg.Valid() && Ending(s, cfg, h) && CanRetire(s.sessions[h])
    ensures var t := Follow(s, cfg, [Retired(h, 0)]);
            t.Some? && Accounted(t.value, cfg) && t.value.outstanding == s.outstanding - {h}
  {
    hide Accounted, IP.Release;
    RetireKeepsAccounts(s, cfg, h, 0);
    FollowOne(s, cfg, Retired(h, 0), []);
    assert [Retired(h, 0)] + [] == [Retired(h, 0)];
  }

  /** A session that is not finalized is finalized by its own signal. */
  lemma AbortEnds(s: State, cfg: Config, h: Handle)
    requires cfg.Valid() && Accounted(s, cfg) && h in s.outstanding && h in s.sessions && !s.sessions[h].finalized
    ensures Enabled(s, cfg, SignalAborted(h))
    ensures var t := Step(s, cfg, SignalAborted(h)); Ending(t, cfg, h) && t.outstanding == s.outstanding
  {
    hide Accounted, Finalize, ReleaseAll, SessionOk;
    SessionIsOk(s, cfg, h);
    NotAborted(s.sessions[h], cfg);
    AbortKeepsAccounts(s, cfg, h);
    AbortIsMarked(s, cfg, h);
    FinalizeKeepsSessions(Marked(s, h), cfg, h);
    ReleaseAllSame(Finalize(Marked(s, h), cfg, h), h);
  }

  lemma NotAborted(m: Session, cfg: Config)
    requires SessionOk(m, cfg) && !m.finalized
    ensures !m.signalAborted
  {
    hide F.Ok;
  }

  lemma ReleaseAllSame(s: State, h: Handle)
    requires h in s.sessions
    ensures var t := ReleaseAll(s, h);
            t.outstanding == s.outstanding && h in t.sessions && t.sessions[h].finalized == s.sessions[h].finalized
  {
    hide StreamsOf;
  }

  lemma {:induction false} CanEmpty(s: State, cfg: Config) returns (es: seq<Event>)
    requires cfg.Valid() && Accounted(s, cfg)
    ensures Follow(s, cfg, es).Some?
    ensures var t := Follow(s, cfg, es).value; Accounted(t, cfg) && t.outstanding == {}
    decreases |s.outstanding|
  {
    hide Accounted, Enabled, Step;
    if s.outstanding == {} {
      return [];
    }
    var h :| h in s.outstanding;
    OutstandingIsKnown(s, cfg);
    hide Follow;
    var first: seq<Event>;
    if s.sessions[h].finalized {
      first := CanLeave(s, cfg, h);
    } else {
      AbortEnds(s, cfg, h);
      var out := CanLeave(Step(s, cfg, SignalAborted(h)), cfg, h);
      FollowOne(s, cfg, SignalAborted(h), out);
      first := [SignalAborted(h)] + out;
    }
    var t := Follow(s, cfg, first).value;
    assert |t.outstanding| < |s.outstanding|;
    var rest := CanEmpty(t, cfg);
    FollowBoth(s, cfg, first, rest);
    es := first + rest;
  }

  function Unaborted(s: State): set<Handle> {
    set h | h in s.sessions && !s.sessions[h].signalAborted
  }

  /** The own signal of a session that has given its slots back, aborting late. */
  lemma LateAbort(s: State, cfg: Config, h: Handle)
    requires cfg.Valid() && Accounted(s, cfg) && s.outstanding == {} && h in Unaborted(s)
    ensures Enabled(s, cfg, SignalAborted(h))
    ensures var t := Step(s, cfg, SignalAborted(h));
            Accounted(t, cfg) && t.outstanding == {} && Unaborted(t) == Unaborted(s) - {h}
  {
    hide Accounted, Finalize, ReleaseAll;
    AbortKeepsAccounts(s, cfg, h);
    AbortIsMarked(s, cfg, h);
    FinalizeKeepsSessions(Marked(s, h), cfg, h);
    FinalizeKeepsSignals(Marked(s, h), cfg, h);
    ReleaseKeepsSignals(Finalize(Marked(s, h), cfg, h), h);
  }

  lemma FinalizeKeepsSignals(s: State, cfg: Config, h: Handle)
    requires h in s.sessions
    ensures Unaborted(Finalize(s, cfg, h)) == Unaborted(s)
  {
    hide AbandonSession, SettleAll, BytesOf;
  }

  lemma ReleaseKeepsSignals(s: State, h: Handle)
    requires h in s.sessions
    ensures Unaborted(ReleaseAll(s, h)) == Unaborted(s) && ReleaseAll(s, h).outstanding == s.outstanding
  {
    hide StreamsOf;
  }

  /** Streams that outlived their session's slots go with its own signal. */
  lemma {:induction false} CanDropStreams(s: State, cfg: Config) returns (es: seq<Event>)
    requires cfg.Valid() && Accounted(s, cfg) && s.outstanding == {}
    ensures Follow(s, cfg, es).Some?
    ensures var t := Follow(s, cfg, es).value; Accounted(t, cfg) && t.outstanding == {} && t.activeStreams == 0
    decreases |Unaborted(s)|
  {
    hide Accounted, Enabled, Step;
    if Unaborted(s) == {} {
      NoStreamsIff(s, cfg);
      assert forall h :: h in s.sessions && !s.sessions[h].signalAborted ==> h in Unaborted(s);
      return [];
    }
    hide Follow;
    var h :| h in Unaborted(s);
    LateAbort(s, cfg, h);
    var rest := CanDropStreams(Step(s, cfg, SignalAborted(h)), cfg);
    FollowOne(s, cfg, SignalAborted(h), rest);
    es := [SignalAborted(h)] + rest;
  }

  /** From every reachable state there is a way into a state in which everything has been given back, every
      stream included. */
  lemma EverythingCanBeGivenBack(cfg: Config, states: seq<State>, events: seq<Event>, k: nat) returns (es: seq<Event>)
    requires IsRun(cfg, states, events) && k < |states|
    ensures cfg.Valid() && Follow(states[k], cfg, es).Some?
    ensures var t := Follow(states[k], cfg, es).value; t.outstanding == {} && AllGivenBack(t) && t.activeStreams == 0
  {
    EveryRunIsAccounted(cfg, states, events, k);
    RunLength(cfg, states, events);
    hide IsRun, Accounted, Follow, AllGivenBack;
    var first := CanEmpty(states[k], cfg);
    var rest := CanDropStreams(Follow(states[k], cfg, first).value, cfg);
    FollowBoth(states[k], cfg, first, rest);
    es := first + rest;
    NobodyHoldsAnything(Follow(states[k], cfg, es).value, cfg);
  }
}
