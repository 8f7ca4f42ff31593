/** Every segment keeps the ledger's invariant: one lemma per segment. */
module LedgerSteps {
  import opened Wrappers
  import opened Sums
  import opened Lifecycles
  import opened Pools
  import opened Ledgers
  import opened LedgerInvariant
  import B = Budgets
  import F = Feeds
  import T = Tasks
  import W = Windows

  // ----- segments that rewrite one session record -----

  /** `m'` is a sound next record of the same session with the same work. */
  ghost predicate SoundNext(m: Session, m': Session, cfg: Config) {
    && SessionOk(m', cfg)
    && Mild(m, m')
    && (m'.ContextAborted() ==> m.ContextAborted())
    && (Gone(m) ==> Gone(m'))
  }

  lemma RewriteKeepsAccounts(s: State, cfg: Config, h: Handle, m: Session)
    requires Accounted(s, cfg) && h in s.sessions
    requires SoundNext(s.sessions[h], m, cfg) && m.feed.queue == s.sessions[h].feed.queue
    ensures Accounted(Put(s, h, m), cfg)
  {
    hide Accounted, SoundNext;
    SessionIsOk(s, cfg, h);
    RequeueKeepsAccounts(s, cfg, h, m, s.queuedBytes);
  }

  /** As above, with the byte counter following the queue. */
  lemma RequeueKeepsAccounts(s: State, cfg: Config, h: Handle, m: Session, queuedBytes: int)
    requires Accounted(s, cfg) && h in s.sessions && SoundNext(s.sessions[h], m, cfg)
    requires queuedBytes == s.queuedBytes + FeedWeight(m) - FeedWeight(s.sessions[h]) <= cfg.maxQueuedBytes
    ensures Accounted(Put(s, h, m).(queuedBytes := queuedBytes), cfg)
  {
    hide Accounted, Gone, Mild, SessionOk, NoAbortedWaiters, FeedWeight;
    SessionIsOk(s, cfg, h);
    WaitersStayCalm(s, cfg, h, m);
    PutKeepsAccounts(s, cfg, h, m, queuedBytes);
  }

  lemma ConcludedIsSound(m: Session, cfg: Config, pumps: set<Pump>)
    requires SessionOk(m, cfg) && DrainPump !in pumps
    ensures SoundNext(m, m.(admitted := true), cfg)
    ensures m.Reading() ==> SoundNext(m, m.(admitted := true, pumps := m.pumps + pumps), cfg)
  {
    hide F.Ok;
  }

  lemma ConcludeKeepsAccounts(s: State, cfg: Config, h: Handle, pumps: set<Pump>)
    requires Accounted(s, cfg) && h in s.sessions && DrainPump !in pumps
    ensures Accounted(Conclude(s, h, pumps), cfg)
  {
    hide Accounted, Gone, SessionOk, SoundNext;
    SessionIsOk(s, cfg, h);
    var m := s.sessions[h];
    ConcludedIsSound(m, cfg, pumps);
    if m.Reading() && s.server.state == ServerState.Running {
      RewriteKeepsAccounts(s, cfg, h, m.(admitted := true, pumps := m.pumps + pumps));
    } else {
      RewriteKeepsAccounts(s, cfg, h, m.(admitted := true));
    }
  }

  lemma PumpEndedIsSound(m: Session, cfg: Config, pump: Pump)
    requires SessionOk(m, cfg) && pump != DrainPump
    ensures SoundNext(m, m.(pumps := m.pumps - {pump}), cfg)
  {
    hide F.Ok;
  }

  lemma PumpEndKeepsAccounts(s: State, cfg: Config, h: Handle, pump: Pump)
    requires Accounted(s, cfg) && h in s.sessions && pump != DrainPump
    ensures Accounted(EndPump(s, h, pump), cfg)
  {
    hide Accounted, Gone, SessionOk, SoundNext;
    SessionIsOk(s, cfg, h);
    PumpEndedIsSound(s.sessions[h], cfg, pump);
    RewriteKeepsAccounts(s, cfg, h, s.sessions[h].(pumps := s.sessions[h].pumps - {pump}));
  }

  lemma DrainLoopIsSound(m: Session, cfg: Config)
    requires SessionOk(m, cfg) && !m.feed.drain.NotDraining?
    ensures SoundNext(m, DrainLoop(m, cfg), cfg)
    ensures !m.Reading() || m.feed.queue == [] ==> SoundNext(m, EndDrain(m), cfg)
  {
    hide F.Size, F.Increasing, F.Below;
  }

  lemma ContinueDrainKeepsAccounts(s: State, cfg: Config, h: Handle)
    requires Accounted(s, cfg) && h in s.sessions && !s.sessions[h].feed.drain.NotDraining?
    ensures Accounted(ContinueDrain(s, cfg, h), cfg)
  {
    hide Accounted, Gone, SessionOk, SoundNext;
    SessionIsOk(s, cfg, h);
    DrainLoopIsSound(s.sessions[h], cfg);
    RewriteKeepsAccounts(s, cfg, h, DrainLoop(s.sessions[h], cfg));
  }

  /** What a retiring session observes is so, and nothing it still does can undo it. */
  lemma ObservedIsSound(s: State, cfg: Config, h: Handle, what: Observation)
    requires h in s.sessions && SessionOk(s.sessions[h], cfg) && CanObserve(s, h, what)
    requires forall w: WorkId :: s.sessions[h].admission == Some(w) ==> w in s.pool.work
    ensures SoundNext(s.sessions[h], Observe(s.sessions[h], what), cfg)
  {
    hide F.Ok;
  }

  lemma AdmissionIsWork(s: State, cfg: Config, h: Handle)
    requires Accounted(s, cfg) && h in s.sessions
    ensures forall w: WorkId :: s.sessions[h].admission == Some(w) ==> w in s.pool.work
    ensures SlotOk(h, s.sessions[h], s.pool.work, cfg.tasks)
  {
    hide Pools.Inv, NoAbortedWaiters, Charged, AllOk, Registered, IpCounted, StreamsCounted, ServerOk;
  }

  lemma ObserveKeepsAccounts(s: State, cfg: Config, h: Handle, what: Observation)
    requires Accounted(s, cfg) && h in s.sessions && CanObserve(s, h, what)
    ensures Accounted(Put(s, h, Observe(s.sessions[h], what)), cfg)
  {
    hide Accounted, Gone, SessionOk, SoundNext, SlotOk;
    SessionIsOk(s, cfg, h);
    AdmissionIsWork(s, cfg, h);
    ObservedIsSound(s, cfg, h, what);
    hide CanObserve;
    RewriteKeepsAccounts(s, cfg, h, Observe(s.sessions[h], what));
  }

  // ----- reading a datagram -----

  lemma DroppedIsSound(m: Session, cfg: Config)
    requires SessionOk(m, cfg)
    ensures SoundNext(m, m.(feed := F.Dropped(m.feed)), cfg)
  {
    F.DroppedIsOk(m.feed, cfg.queueSize);
    hide F.Ok;
  }

  lemma OfferedIsSound(m: Session, cfg: Config, size: nat)
    requires cfg.Valid() && SessionOk(m, cfg) && m.Reading()
    ensures |m.feed.queue| <= cfg.queueSize
    ensures var feed := F.Offered(m.feed, cfg.queueSize, cfg.queueOverflow, size, m.Waits(cfg.tasks));
            && SoundNext(m, m.(feed := feed, pumps := if feed.drain.NotDraining? then m.pumps else m.pumps + {DrainPump}), cfg)
            && F.Size(feed.queue) == F.Size(m.feed.queue) + F.OfferedBytes(m.feed, cfg.queueSize, cfg.queueOverflow, size)
  {
    F.OfferedIsOk(m.feed, cfg.queueSize, cfg.queueOverflow, size, m.Waits(cfg.tasks));
    F.OfferedIsDraining(m.feed, cfg.queueSize, cfg.queueOverflow, size, m.Waits(cfg.tasks));
    assert |m.feed.queue| <= cfg.queueSize;
    hide F.Ok, F.OfferedBytes;
  }

  lemma MeteredIsSound(m: Session, cfg: Config, arrival: Arrival)
    requires SessionOk(m, cfg)
    ensures var metered := Metered(m, cfg, arrival).0; SoundNext(m, metered, cfg) && metered == m.(meter := metered.meter)
  {
    hide F.Ok, W.TakeDatagram;
  }

  lemma ReadDatagramKeepsAccounts(s: State, cfg: Config, h: Handle, arrival: Arrival)
    requires cfg.Valid() && Accounted(s, cfg) && h in s.sessions && |s.sessions[h].feed.queue| <= cfg.queueSize
    ensures Accounted(ReadDatagram(s, cfg, h, arrival), cfg)
  {
    hide Accounted, Gone, SessionOk, Metered, Receive, SoundNext;
    SessionIsOk(s, cfg, h);
    if !s.sessions[h].Reading() {
      PumpEndKeepsAccounts(s, cfg, h, DatagramPump);
    } else {
      var (m, inRate) := Metered(s.sessions[h], cfg, arrival);
      MeteredIsSound(s.sessions[h], cfg, arrival);
      RewriteKeepsAccounts(s, cfg, h, m);
      ReceiveKeepsAccounts(Put(s, h, m), cfg, h, arrival, inRate);
    }
  }

  lemma ReceiveKeepsAccounts(s: State, cfg: Config, h: Handle, arrival: Arrival, inRate: bool)
    requires cfg.Valid() && Accounted(s, cfg) && h in s.sessions && s.sessions[h].Reading()
    requires |s.sessions[h].feed.queue| <= cfg.queueSize
    ensures Accounted(Receive(s, cfg, h, arrival, inRate), cfg)
  {
    hide Accounted, Gone, SessionOk, Arrival.Fits;
    SessionIsOk(s, cfg, h);
    var m, size, fits := s.sessions[h], arrival.size, arrival.Fits(cfg);
    if !F.Judge(m.feed, cfg.queueSize, cfg.queueOverflow, size, fits, inRate, s.queuedBytes, cfg.maxQueuedBytes).ToQueue? {
      DroppedIsSound(m, cfg);
      hide SoundNext;
      RewriteKeepsAccounts(s, cfg, h, m.(feed := F.Dropped(m.feed)));
    } else {
      OfferedIsSound(m, cfg, size);
      F.OfferedStaysUnderLimit(m.feed, cfg.queueSize, cfg.queueOverflow, size, fits, inRate, s.queuedBytes, cfg.maxQueuedBytes);
      hide F.Judge, F.OfferedBytes, F.Offered, SoundNext;
      var feed := F.Offered(m.feed, cfg.queueSize, cfg.queueOverflow, size, m.Waits(cfg.tasks));
      var m' := m.(feed := feed, pumps := if feed.drain.NotDraining? then m.pumps else m.pumps + {DrainPump});
      RequeueKeepsAccounts(s, cfg, h, m', s.queuedBytes + F.OfferedBytes(m.feed, cfg.queueSize, cfg.queueOverflow, size));
    }
  }

  // ----- moving through the budget -----

  lemma PoolIsOk(s: State, cfg: Config)
    requires Accounted(s, cfg)
    ensures Pools.Inv(s.pool, cfg.handlers)
    ensures NoAbortedWaiters(s.pool.work, s.sessions)
  {
    hide Pools.Inv, Placed, NoAbortedWaiters, Charged, AllOk, Registered, IpCounted, StreamsCounted, ServerOk;
  }

  lemma BeginKeepsAccounts(s: State, cfg: Config, w: WorkId)
    requires Accounted(s, cfg) && AsksBudget(s, w)
    ensures Accounted(Begin(s, cfg, w), cfg)
  {
    var aborted := s.sessions[s.pool.work[w].session].ContextAborted();
    var p := Enter(s.pool, cfg.handlers, w, aborted);
    hide Accounted;
    PoolIsOk(s, cfg);
    EnterKeepsInv(s.pool, cfg.handlers, w, aborted);
    hide Pools.Inv;
    EnteredIsCalm(s, cfg, w, aborted);
    hide Enter, NoAbortedWaiters;
    PoolMoveKeepsAccounts(s, cfg, p);
  }

  lemma EnteredIsCalm(s: State, cfg: Config, w: WorkId, aborted: bool)
    requires NoAbortedWaiters(s.pool.work, s.sessions) && AsksBudget(s, w)
    requires aborted == s.sessions[s.pool.work[w].session].ContextAborted()
    ensures NoAbortedWaiters(Enter(s.pool, cfg.handlers, w, aborted).work, s.sessions)
  {
  }

  lemma ReturnKeepsAccounts(s: State, cfg: Config, w: WorkId)
    requires Accounted(s, cfg) && w in s.pool.work && s.pool.work[w].phase.Running? && 0 < s.pool.budget.running
    ensures Accounted(s.(pool := Leave(s.pool, cfg.handlers, w)), cfg)
  {
    var p := Leave(s.pool, cfg.handlers, w);
    hide Accounted;
    PoolIsOk(s, cfg);
    LeaveKeepsInv(s.pool, cfg.handlers, w);
    ReturnedIsCalm(s, cfg, w);
    hide Pools.Inv, Leave, NoAbortedWaiters;
    PoolMoveKeepsAccounts(s, cfg, p);
  }

  lemma ReturnedIsCalm(s: State, cfg: Config, w: WorkId)
    requires Pools.Inv(s.pool, cfg.handlers) && NoAbortedWaiters(s.pool.work, s.sessions)
    requires w in s.pool.work && s.pool.work[w].phase.Running? && 0 < s.pool.budget.running
    ensures NoAbortedWaiters(Leave(s.pool, cfg.handlers, w).work, s.sessions)
  {
    LeaveGrantsHead(s.pool, cfg.handlers, w);
    hide Leave, Pools.Inv;
  }

  // ----- aborting a context -----

  /** After its context aborts a session has no waiting call, and nothing else has changed phase. */
  lemma AbandonSessionEffect(s: State, cfg: Config, h: Handle)
    requires Accounted(s, cfg)
    ensures var p := AbandonSession(s, cfg, h);
            && Pools.Inv(p, cfg.handlers)
            && SameCharges(s.pool.work, p.work)
            && (forall w :: w in p.work && p.work[w].phase.Waiting? ==> p.work[w].session != h && p.work[w] == s.pool.work[w])
  {
    hide Accounted;
    PoolIsOk(s, cfg);
    var ws := WaitersOf(s.pool.budget.waiters, s.pool.work, h);
    AbandonAllEffect(s.pool, cfg.handlers, ws);
    assert forall w :: w in s.pool.work && s.pool.work[w].phase.Waiting? ==> w in s.pool.budget.waiters;
    hide Pools.Inv;
  }

  lemma AbandonedIsCalm(work: map<WorkId, Work>, work': map<WorkId, Work>, sessions: map<Handle, Session>, h: Handle, m: Session)
    requires NoAbortedWaiters(work, sessions)
    requires forall w :: w in work' && work'[w].phase.Waiting? ==> work'[w].session != h && w in work && work'[w] == work[w]
    ensures NoAbortedWaiters(work', sessions[h := m])
    ensures h in sessions ==> NoAbortedWaiters(work', sessions)
  {
  }

  lemma TimedOutIsSound(m: Session, cfg: Config)
    requires SessionOk(m, cfg)
    ensures SessionOk(m.(admissionAborted := true), cfg) && Mild(m, m.(admissionAborted := true))
    ensures Gone(m) ==> Gone(m.(admissionAborted := true))
  {
    hide F.Ok;
  }

  lemma TimeOutKeepsAccounts(s: State, cfg: Config, h: Handle)
    requires Accounted(s, cfg) && h in s.sessions
    ensures Accounted(TimeOutAdmission(s, cfg, h), cfg)
  {
    var p := AbandonSession(s, cfg, h);
    var m := s.sessions[h].(admissionAborted := true);
    hide Accounted, Gone, SessionOk;
    SessionIsOk(s, cfg, h);
    TimedOutIsSound(s.sessions[h], cfg);
    hide Mild;
    PoolIsOk(s, cfg);
    AbandonSessionEffect(s, cfg, h);
    AbandonedIsCalm(s.pool.work, p.work, s.sessions, h, m);
    hide AbandonSession, NoAbortedWaiters, Pools.Inv, SameCharges;
    PoolMoveKeepsAccounts(s, cfg, p);
    PutKeepsAccounts(s.(pool := p), cfg, h, m, s.queuedBytes);
  }

  // ----- stopping intake -----

  lemma IntakeStoppedIsSound(m: Session, cfg: Config)
    requires SessionOk(m, cfg)
    ensures SoundNext(m, IntakeStopped(m), cfg)
    ensures FeedWeight(IntakeStopped(m)) == 0 && m.feed.bytes == FeedWeight(m)
  {
    F.ClearedIsOk(m.feed, cfg.queueSize);
    assert m.feed.bytes == FeedWeight(m);
    hide F.Ok;
  }

  lemma StopIntakeKeepsAccounts(s: State, cfg: Config, h: Handle)
    requires Accounted(s, cfg) && h in s.sessions
    ensures Accounted(StopIntake(s, h), cfg)
  {
    hide Accounted, Gone, SessionOk, SoundNext, FeedWeight, IntakeStopped;
    SessionIsOk(s, cfg, h);
    IntakeStoppedIsSound(s.sessions[h], cfg);
    RequeueKeepsAccounts(s, cfg, h, IntakeStopped(s.sessions[h]), s.queuedBytes - s.sessions[h].feed.bytes);
  }

  // ----- submitting -----

  /** The record and the slots of a session that takes one more task. */
  lemma SubmittedSlot(h: Handle, m: Session, p: Pool, cfg: Config, bytes: nat)
    requires SlotOk(h, m, p.work, cfg.tasks) && SettledOnce(p) && m.tasks.Offer(cfg.tasks).Taken()
    ensures var phase := if m.tasks.Offer(cfg.tasks).Started? then Started else Queued;
            var m' := m.(tasks := m.tasks.Submit(cfg.tasks, p.next));
            SlotOk(h, m', Charge(p, h, Task, bytes, phase).work, cfg.tasks)
  {
    var phase := if m.tasks.Offer(cfg.tasks).Started? then Started else Queued;
    ChargeEffect(p, h, Task, bytes, phase);
    var work' := Charge(p, h, Task, bytes, phase).work;
    assert p.next !in p.work;
    assert p.next !in m.tasks.pending;
    assert forall w: WorkId :: QueuedIn(work', w, h) <==> QueuedIn(p.work, w, h) || (phase.Queued? && w == p.next);
    assert forall w: WorkId :: AdmissionOf(work', w, h) <==> AdmissionOf(p.work, w, h);
    hide QueuedIn, AdmissionOf, SettledOnce, Charge, OthersKept;
    if phase.Queued? {
      B.AppendKeepsDistinct(m.tasks.pending, p.next);
    }
  }

  lemma SubmittedIsSound(m: Session, cfg: Config, w: WorkId)
    requires SessionOk(m, cfg) && m.tasks.Offer(cfg.tasks).Taken()
    ensures SessionOk(m.(tasks := m.tasks.Submit(cfg.tasks, w)), cfg)
    ensures Steady(m, m.(tasks := m.tasks.Submit(cfg.tasks, w)))
    ensures !Gone(m)
  {
    hide F.Ok;
  }

  lemma ChargedIsCalm(s: State, h: Handle, m: Session, p: Pool, kind: Kind, bytes: nat, phase: Phase)
    requires NoAbortedWaiters(p.work, s.sessions[h := m]) && !phase.Waiting?
    ensures NoAbortedWaiters(Charge(p, h, kind, bytes, phase).work, s.sessions[h := m])
  {
  }

  /** `submit` from a state whose server total still contains the bytes that leave with `m1`. */
  lemma SubmitKeepsAccounts(s: State, cfg: Config, h: Handle, m1: Session, bytes: nat)
    requires cfg.Valid() && Accounted(s, cfg) && h in s.sessions
    requires SoundNext(s.sessions[h], m1, cfg)
    requires FeedWeight(m1) + bytes == FeedWeight(s.sessions[h])
    ensures Accounted(Submit(Put(s, h, m1), cfg, h, bytes), cfg)
  {
    hide Accounted, SoundNext, FeedWeight;
    if !s.pool.budget.CanReserve(cfg.handlers) {
      RefuseIsOk(s, cfg);
      RefusedKeepsAccounts(s, cfg, h, m1, Refuse(s.pool), bytes);
    } else if m1.tasks.Offer(cfg.tasks).Taken() {
      TakenKeepsAccounts(s, cfg, h, m1, bytes);
    } else {
      var p := Settle(Charge(s.pool, h, Task, bytes, Started), s.pool.next);
      BouncedIsOk(s, cfg, h, Task, bytes);
      RefusedKeepsAccounts(s, cfg, h, m1, p, bytes);
    }
  }

  lemma RefuseIsOk(s: State, cfg: Config)
    requires Accounted(s, cfg)
    ensures Pools.Inv(Refuse(s.pool), cfg.handlers) && Refuse(s.pool).work == s.pool.work
  {
    hide Accounted, Pools.Inv;
    PoolIsOk(s, cfg);
    RefuseKeepsInv(s.pool, cfg.handlers);
  }

  /** A charge that is settled at once leaves the same work behind. */
  lemma BouncedIsOk(s: State, cfg: Config, h: Handle, kind: Kind, bytes: nat)
    requires Accounted(s, cfg) && s.pool.budget.CanReserve(cfg.handlers)
    ensures var p := Settle(Charge(s.pool, h, kind, bytes, Started), s.pool.next);
            Pools.Inv(p, cfg.handlers) && p.work == s.pool.work
  {
    hide Accounted, Counted;
    PoolIsOk(s, cfg);
    var charged := Charge(s.pool, h, kind, bytes, Started);
    ChargeKeepsInv(s.pool, cfg.handlers, h, kind, bytes, Started);
    SettleKeepsInv(charged, cfg.handlers, s.pool.next);
    assert s.pool.next !in s.pool.work;
    assert charged.work - {s.pool.next} == s.pool.work;
  }

  lemma RefusedKeepsAccounts(s: State, cfg: Config, h: Handle, m1: Session, p: Pool, bytes: nat)
    requires Accounted(s, cfg) && h in s.sessions && SoundNext(s.sessions[h], m1, cfg)
    requires FeedWeight(m1) + bytes == FeedWeight(s.sessions[h])
    requires Pools.Inv(p, cfg.handlers) && p.work == s.pool.work
    ensures Accounted(Put(s, h, m1).(pool := p, queuedBytes := s.queuedBytes - bytes), cfg)
  {
    hide Accounted, SoundNext, FeedWeight, Pools.Inv, NoAbortedWaiters;
    SessionIsOk(s, cfg, h);
    RequeueKeepsAccounts(s, cfg, h, m1, s.queuedBytes - bytes);
    var t := Put(s, h, m1).(queuedBytes := s.queuedBytes - bytes);
    PoolIsOk(t, cfg);
    PoolMoveKeepsAccounts(t, cfg, p);
  }

  lemma TakenKeepsAccounts(s: State, cfg: Config, h: Handle, m1: Session, bytes: nat)
    requires cfg.Valid() && Accounted(s, cfg) && h in s.sessions && SoundNext(s.sessions[h], m1, cfg)
    requires FeedWeight(m1) + bytes == FeedWeight(s.sessions[h])
    requires s.pool.budget.CanReserve(cfg.handlers) && m1.tasks.Offer(cfg.tasks).Taken()
    ensures Accounted(Submit(Put(s, h, m1), cfg, h, bytes), cfg)
  {
    hide Accounted, FeedWeight, Counted, SettledOnce, NoAbortedWaiters, SlotOk, SessionOk, Steady;
    hide OthersKept, Gone, Charge, T.Core.Submit;
    var phase := if m1.tasks.Offer(cfg.tasks).Started? then Started else Queued;
    var p := Charge(s.pool, h, Task, bytes, phase);
    var m' := m1.(tasks := m1.tasks.Submit(cfg.tasks, s.pool.next));
    assert Submit(Put(s, h, m1), cfg, h, bytes) == Put(Put(s, h, m1), h, m').(pool := p);
    assert Put(Put(s, h, m1), h, m').(pool := p) == Put(s, h, m').(pool := p, queuedBytes := s.queuedBytes);
    TakenParts(s, cfg, h, m1, bytes);
    hide Submit, SoundNext, Pools.Inv, T.Core.Offer;
    SessionIsOk(s, cfg, h);
    WorkMoveKeepsAccounts(s, cfg, h, m', p, s.queuedBytes);
  }

  lemma TakenParts(s: State, cfg: Config, h: Handle, m1: Session, bytes: nat)
    requires cfg.Valid() && Accounted(s, cfg) && h in s.sessions && SoundNext(s.sessions[h], m1, cfg)
    requires FeedWeight(m1) + bytes == FeedWeight(s.sessions[h])
    requires s.pool.budget.CanReserve(cfg.handlers) && m1.tasks.Offer(cfg.tasks).Taken()
    ensures var phase := if m1.tasks.Offer(cfg.tasks).Started? then Started else Queued;
            var p := Charge(s.pool, h, Task, bytes, phase);
            var m' := m1.(tasks := m1.tasks.Submit(cfg.tasks, s.pool.next));
            && Pools.Inv(p, cfg.handlers)
            && OthersKept(s.pool.work, p.work, h) && SlotOk(h, m', p.work, cfg.tasks)
            && h in s.outstanding
            && NoAbortedWaiters(p.work, s.sessions[h := m'])
            && s.queuedBytes == Sum(p.work, ByteWeight) + Sum(s.sessions, FeedWeight) + FeedWeight(m') - FeedWeight(s.sessions[h])
            && SessionOk(m', cfg) && Steady(s.sessions[h], m')
  {
    hide Accounted, Counted, SettledOnce, NoAbortedWaiters, SlotOk, SessionOk;
    hide OthersKept, Gone, Charge, T.Core.Submit, T.Core.Offer;
    var phase := if m1.tasks.Offer(cfg.tasks).Started? then Started else Queued;
    var m' := m1.(tasks := m1.tasks.Submit(cfg.tasks, s.pool.next));
    PoolIsOk(s, cfg);
    SessionIsOk(s, cfg, h);
    ChargeKeepsInv(s.pool, cfg.handlers, h, Task, bytes, phase);
    ChargeEffect(s.pool, h, Task, bytes, phase);
    AdmissionIsWork(s, cfg, h);
    SameTasksSameSlot(h, s.sessions[h], m1, s.pool.work, cfg.tasks);
    SubmittedSlot(h, m1, s.pool, cfg, bytes);
    SubmittedIsSound(m1, cfg, s.pool.next);
    WaitersStayCalm(s, cfg, h, m');
    ChargedIsCalm(s, h, m', s.pool, Task, bytes, phase);
    BytesAreCharged(s, cfg);
    assert FeedWeight(m') == FeedWeight(m1);
  }

  lemma SameTasksSameSlot(h: Handle, m: Session, m': Session, work: map<WorkId, Work>, limits: T.Limits)
    requires SlotOk(h, m, work, limits)
    requires m'.tasks.active == m.tasks.active && m'.tasks.pending == m.tasks.pending && m'.admission == m.admission
    ensures SlotOk(h, m', work, limits)
  {
  }

  lemma BytesAreCharged(s: State, cfg: Config)
    requires Accounted(s, cfg)
    ensures Charged(s.queuedBytes, s.pool.work, s.sessions) && s.queuedBytes <= cfg.maxQueuedBytes
  {
    hide Pools.Inv, Placed, NoAbortedWaiters, Charged, AllOk, Registered, IpCounted, StreamsCounted, ServerOk;
  }

  lemma DrainTakesSoundly(m: Session, cfg: Config)
    requires SessionOk(m, cfg) && m.feed.queue != []
    ensures SoundNext(m, m.(feed := F.Taken(m.feed)), cfg)
    ensures FeedWeight(m.(feed := F.Taken(m.feed))) + m.feed.queue[0].size == FeedWeight(m)
  {
    F.TakenIsOk(m.feed, cfg.queueSize);
    hide F.Ok;
  }

  /** A closed scheduler means stopped intake, so a drain loop never ends with something to drain. */
  lemma DrainEndsSoundly(m: Session, cfg: Config)
    requires SessionOk(m, cfg) && !m.feed.drain.NotDraining?
    requires !m.tasks.accepting || !m.Reading() || m.feed.queue == []
    ensures SoundNext(m, EndDrain(m), cfg) && EndDrain(m).feed.queue == m.feed.queue
  {
    hide F.Size, F.Increasing, F.Below;
  }

  lemma ResumeDrainKeepsAccounts(s: State, cfg: Config, h: Handle)
    requires cfg.Valid() && Accounted(s, cfg) && h in s.sessions && s.sessions[h].feed.drain.Resuming?
    ensures Accounted(ResumeDrain(s, cfg, h), cfg)
  {
    hide Accounted, Gone, SessionOk, SoundNext, FeedWeight, T.Core.HasCapacity, DrainLoop, EndDrain, Submit;
    var m := s.sessions[h];
    SessionIsOk(s, cfg, h);
    if !m.tasks.HasCapacity(cfg.tasks) {
      if !m.tasks.accepting || !m.Reading() {
        DrainEndsSoundly(m, cfg);
        RewriteKeepsAccounts(s, cfg, h, EndDrain(m));
      } else {
        ContinueDrainKeepsAccounts(s, cfg, h);
      }
    } else if m.feed.queue == [] {
      DrainEndsSoundly(m, cfg);
      RewriteKeepsAccounts(s, cfg, h, EndDrain(m));
    } else {
      DrainTakesSoundly(m, cfg);
      SubmitKeepsAccounts(s, cfg, h, m.(feed := F.Taken(m.feed)), m.feed.queue[0].size);
    }
  }

  // ----- settling -----

  /** The slot of a session one of whose running tasks has just been settled. */
  ghost predicate OneFree(h: Handle, m: Session, work: map<WorkId, Work>, limits: T.Limits) {
    && m.tasks.Bounded(limits) && 0 < m.tasks.active
    && B.Distinct(m.tasks.pending)
    && Sum(work, ActiveIn(h)) == m.tasks.active - 1
    && (forall w: WorkId :: w in m.tasks.pending <==> QueuedIn(work, w, h))
    && (forall w: WorkId :: m.admission == Some(w) <==> AdmissionOf(work, w, h))
    && (forall w: WorkId :: AdmissionOf(work, w, h) ==> !work[w].phase.Queued?)
  }

  lemma SettledSlot(h: Handle, m: Session, p: Pool, cfg: Config, w: WorkId)
    requires SlotOk(h, m, p.work, cfg.tasks) && 0 < m.tasks.active && 0 < p.budget.reserved
    requires w in p.work && p.work[w] == Work(h, Task, p.work[w].bytes, Returned)
    ensures OneFree(h, m, Settle(p, w).work, cfg.tasks)
    ensures OthersKept(p.work, Settle(p, w).work, h)
    ensures Sum(Settle(p, w).work, ByteWeight) == Sum(p.work, ByteWeight) - p.work[w].bytes
  {
    SettleEffect(p, w);
    var work := Settle(p, w).work;
    assert forall x: WorkId :: QueuedIn(work, x, h) <==> QueuedIn(p.work, x, h);
    assert forall x: WorkId :: AdmissionOf(work, x, h) <==> AdmissionOf(p.work, x, h);
    hide QueuedIn, AdmissionOf, OthersKept, Settle;
  }

  lemma NextStarted(h: Handle, m: Session, p: Pool, cfg: Config)
    requires OneFree(h, m, p.work, cfg.tasks) && m.tasks.pending != []
    ensures var p' := Start(p, m.tasks.pending[0]);
            && SlotOk(h, m.(tasks := m.tasks.Finish()), p'.work, cfg.tasks)
            && OthersKept(p.work, p'.work, h) && p'.work.Keys == p.work.Keys
            && Sum(p'.work, ByteWeight) == Sum(p.work, ByteWeight)
  {
    var pending := m.tasks.pending;
    var next := pending[0];
    assert next in pending;
    assert QueuedIn(p.work, next, h);
    StartEffect(p, next);
    var work := Start(p, next).work;
    assert pending == [next] + pending[1..];
    assert next !in pending[1..];
    assert forall x: WorkId :: QueuedIn(work, x, h) <==> QueuedIn(p.work, x, h) && x != next;
    assert forall x: WorkId :: AdmissionOf(work, x, h) <==> AdmissionOf(p.work, x, h);
    hide QueuedIn, AdmissionOf, Start, OthersKept;
  }

  function AfterFinish(p: Pool, m: Session, w: WorkId): Pool {
    if m.tasks.pending == [] then Settle(p, w) else Start(Settle(p, w), m.tasks.pending[0])
  }

  lemma FinishedSlot(h: Handle, m: Session, p: Pool, cfg: Config, w: WorkId)
    requires SlotOk(h, m, p.work, cfg.tasks) && 0 < m.tasks.active && 0 < p.budget.reserved
    requires w in p.work && p.work[w] == Work(h, Task, p.work[w].bytes, Returned)
    ensures SlotOk(h, m.(tasks := m.tasks.Finish()), AfterFinish(p, m, w).work, cfg.tasks)
    ensures OthersKept(p.work, AfterFinish(p, m, w).work, h)
    ensures Sum(AfterFinish(p, m, w).work, ByteWeight) == Sum(p.work, ByteWeight) - p.work[w].bytes
    ensures AfterFinish(p, m, w).work.Keys == p.work.Keys - {w}
  {
    SettledSlot(h, m, p, cfg, w);
    var settled := Settle(p, w);
    assert settled.work == p.work - {w};
    hide SlotOk, OthersKept, Start, Settle;
    if m.tasks.pending == [] {
      FreeSlot(h, m, settled.work, cfg);
    } else {
      NextStarted(h, m, settled, cfg);
      hide OneFree;
      OthersKeptTrans(p.work, settled.work, AfterFinish(p, m, w).work, h);
    }
  }

  lemma FreeSlot(h: Handle, m: Session, work: map<WorkId, Work>, cfg: Config)
    requires OneFree(h, m, work, cfg.tasks) && m.tasks.pending == []
    ensures SlotOk(h, m.(tasks := m.tasks.Finish()), work, cfg.tasks)
  {
  }

  lemma FinishedIsSound(m: Session, cfg: Config)
    requires SessionOk(m, cfg) && 0 < m.tasks.active
    ensures SessionOk(Freed(m, cfg), cfg)
    ensures Steady(m, Freed(m, cfg))
    ensures !Gone(m)
    ensures Freed(m, cfg).tasks == m.tasks.Finish() && Freed(m, cfg).admission == m.admission
    ensures Freed(m, cfg).feed.queue == m.feed.queue && Freed(m, cfg).ContextAborted() == m.ContextAborted()
  {
    F.WokenIsOk(m.feed, cfg.queueSize);
    hide F.Ok;
  }

  lemma FinishedIsCalm(p: Pool, m: Session, w: WorkId, sessions: map<Handle, Session>)
    requires NoAbortedWaiters(p.work, sessions)
    ensures NoAbortedWaiters(AfterFinish(p, m, w).work, sessions)
  {
  }

  lemma FinishedPool(p: Pool, limits: B.Limits, h: Handle, m: Session, cfg: Config, w: WorkId)
    requires Pools.Inv(p, limits) && SlotOk(h, m, p.work, cfg.tasks)
    requires w in p.work && p.work[w].phase.Returned?
    ensures 0 < p.budget.reserved
    ensures Pools.Inv(AfterFinish(p, m, w), limits)
  {
    SettleKeepsInv(p, limits, w);
    var settled := Settle(p, w);
    assert settled.work == p.work - {w};
    hide Counted, SettledOnce;
    if m.tasks.pending != [] {
      var next := m.tasks.pending[0];
      assert next in m.tasks.pending;
      assert QueuedIn(p.work, next, h);
      StartKeepsInv(settled, limits, next);
    }
  }

  lemma WorkIsPlaced(s: State, cfg: Config, w: WorkId)
    requires Accounted(s, cfg) && w in s.pool.work
    ensures s.pool.work[w].session in s.outstanding && s.pool.work[w].session in s.sessions
  {
    hide Pools.Inv, NoAbortedWaiters, Charged, AllOk, Registered, IpCounted, StreamsCounted, ServerOk, SlotOk;
  }

  lemma FinishKeepsAccounts(s: State, cfg: Config, h: Handle, w: WorkId)
    requires Accounted(s, cfg) && h in s.sessions && w in s.pool.work && 0 < s.sessions[h].tasks.active
    requires s.pool.work[w] == Work(h, Task, s.pool.work[w].bytes, Returned)
    ensures Accounted(Finish(s, cfg, h, w), cfg)
  {
    hide Accounted, Pools.Inv, NoAbortedWaiters, SlotOk, SessionOk, Gone, FeedWeight;
    hide OthersKept, AfterFinish, Settle, Start, Steady, T.Core.Finish;
    var m := s.sessions[h];
    var m' := Freed(m, cfg);
    FinishIsPutAndPool(s, cfg, h, w);
    SessionIsOk(s, cfg, h);
    PoolIsOk(s, cfg);
    WorkIsPlaced(s, cfg, w);
    AdmissionIsWork(s, cfg, h);
    FinishedPool(s.pool, cfg.handlers, h, m, cfg, w);
    FinishedSlot(h, m, s.pool, cfg, w);
    FinishedIsSound(m, cfg);
    SameTasksSameSlot(h, m.(tasks := m.tasks.Finish()), m', AfterFinish(s.pool, m, w).work, cfg.tasks);
    hide Freed;
    WaitersStayCalm(s, cfg, h, m');
    FinishedIsCalm(s.pool, m, w, s.sessions[h := m']);
    BytesAreCharged(s, cfg);
    assert FeedWeight(m') == FeedWeight(m) by { SameFeedSameWeight(m, m'); }
    hide Finish;
    WorkMoveKeepsAccounts(s, cfg, h, m', AfterFinish(s.pool, m, w), s.queuedBytes - s.pool.work[w].bytes);
  }

  lemma SameFeedSameWeight(m: Session, m': Session)
    requires m.feed.queue == m'.feed.queue
    ensures FeedWeight(m) == FeedWeight(m')
  {
  }

  lemma FinishIsPutAndPool(s: State, cfg: Config, h: Handle, w: WorkId)
    requires h in s.sessions && w in s.pool.work && 0 < s.sessions[h].tasks.active
    ensures Finish(s, cfg, h, w) ==
            Put(s, h, Freed(s.sessions[h], cfg))
              .(pool := AfterFinish(s.pool, s.sessions[h], w), queuedBytes := s.queuedBytes - s.pool.work[w].bytes)
  {
    hide Settle, Start;
  }

  lemma SettledAdmissionSlot(h: Handle, m: Session, p: Pool, cfg: Config, w: WorkId)
    requires SlotOk(h, m, p.work, cfg.tasks) && 0 < p.budget.reserved
    requires AdmissionOf(p.work, w, h)
    ensures SlotOk(h, m.(admission := None), Settle(p, w).work, cfg.tasks)
    ensures OthersKept(p.work, Settle(p, w).work, h)
    ensures Sum(Settle(p, w).work, ByteWeight) == Sum(p.work, ByteWeight)
  {
    SettleEffect(p, w);
    var work := Settle(p, w).work;
    assert forall x: WorkId :: QueuedIn(work, x, h) <==> QueuedIn(p.work, x, h);
    assert forall x: WorkId :: AdmissionOf(work, x, h) <==> AdmissionOf(p.work, x, h) && x != w;
    hide QueuedIn, OthersKept, Settle;
  }

  lemma NoAdmissionIsSound(m: Session, cfg: Config)
    requires SessionOk(m, cfg)
    ensures SessionOk(m.(admission := None), cfg) && Steady(m, m.(admission := None))
  {
    hide F.Ok;
  }

  lemma SettleAdmissionKeepsAccounts(s: State, cfg: Config, h: Handle, w: WorkId)
    requires Accounted(s, cfg) && h in s.sessions && AdmissionOf(s.pool.work, w, h)
    requires s.pool.work[w].phase.Returned?
    ensures Accounted(SettleAdmission(s, h, w), cfg)
  {
    hide Accounted, Counted, SettledOnce, NoAbortedWaiters, SlotOk, SessionOk, Gone, FeedWeight, OthersKept, Settle, Steady;
    var m := s.sessions[h];
    var m' := m.(admission := None);
    SessionIsOk(s, cfg, h);
    PoolIsOk(s, cfg);
    WorkIsPlaced(s, cfg, w);
    AdmissionIsWork(s, cfg, h);
    SettleKeepsInv(s.pool, cfg.handlers, w);
    SettledAdmissionSlot(h, m, s.pool, cfg, w);
    NoAdmissionIsSound(m, cfg);
    WaitersStayCalm(s, cfg, h, m');
    SettledIsCalm(s.pool, w, s.sessions[h := m']);
    BytesAreCharged(s, cfg);
    SameFeedSameWeight(m, m');
    hide Pools.Inv, AdmissionOf;
    WorkMoveKeepsAccounts(s, cfg, h, m', Settle(s.pool, w), s.queuedBytes);
  }

  lemma SettledIsCalm(p: Pool, w: WorkId, sessions: map<Handle, Session>)
    requires NoAbortedWaiters(p.work, sessions)
    ensures NoAbortedWaiters(Settle(p, w).work, sessions)
  {
  }
}
