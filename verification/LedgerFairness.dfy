/**
  Arrival order in the runs of the whole ledger: admissions, tasks of all sessions, aborts of whole
  sessions and a stopping server share one queue for the global budget.
*/
module LedgerFairness {
  import opened Pools
  import opened Ledgers
  import opened LedgerInvariant
  import opened LedgerSteps
  import opened LedgerEnds
  import opened LedgerRuns
  import opened LedgerTheorems
  import opened LedgerProgress
  import B = Budgets
  import F = Feeds
  import IP = Slots
  import Srv = Servers

  // ----- sequences without some of their elements -----

  lemma {:induction false} WithoutHas(s: seq<WorkId>, gone: set<WorkId>)
    ensures forall w :: w in B.Without(s, gone) <==> w in s && w !in gone
  {
    if s != [] {
      var n := |s| - 1;
      WithoutHas(s[..n], gone);
      assert s == s[..n] + [s[n]];
    }
  }

  lemma {:induction false} WithoutNone(s: seq<WorkId>, gone: set<WorkId>)
    requires forall w :: w in s ==> w !in gone
    ensures B.Without(s, gone) == s
  {
    if s != [] {
      var n := |s| - 1;
      assert s == s[..n] + [s[n]];
      WithoutNone(s[..n], gone);
    }
  }

  lemma {:induction false} WithoutTwice(s: seq<WorkId>, a: set<WorkId>, b: set<WorkId>)
    ensures B.Without(B.Without(s, a), b) == B.Without(s, a + b)
  {
    if s != [] {
      var n := |s| - 1;
      WithoutTwice(s[..n], a, b);
      var rest := B.Without(s[..n], a);
      if s[n] !in a {
        assert (rest + [s[n]])[..|rest|] == rest;
      } else {
        assert B.Without(s, a) == rest;
      }
    }
  }

  lemma {:induction false} WithoutConcat(s: seq<WorkId>, t: seq<WorkId>, gone: set<WorkId>)
    ensures B.Without(s + t, gone) == B.Without(s, gone) + B.Without(t, gone)
  {
    if t == [] {
      assert s + t == s;
    } else {
      var n := |t| - 1;
      assert (s + t)[..|s| + n] == s + t[..n];
      WithoutConcat(s, t[..n], gone);
    }
  }

  // ----- moves that neither ask nor grant -----

  /** Has not asked the budget yet. */
  predicate Early(phase: Phase) {
    phase.Queued? || phase.Started?
  }

  function Lost(p: Pool, q: Pool): set<WorkId> {
    set w | w in p.budget.waiters && w !in q.budget.waiters
  }

  /** Nobody goes back to before asking. */
  ghost predicate Forward(p: Pool, q: Pool) {
    && p.next <= q.next
    && forall w :: w in q.work && Early(q.work[w].phase) ==> p.next <= w || (w in p.work && Early(p.work[w].phase))
  }

  /** Nobody begins to wait or to run, and the queue only loses some of its elements. */
  ghost predicate Calm(p: Pool, q: Pool) {
    && Forward(p, q)
    && (forall w :: w in q.work && q.work[w].phase.Running? ==> w in p.work && p.work[w].phase.Running?)
    && (forall w :: w in q.work && q.work[w].phase.Waiting? ==> w in p.work && p.work[w].phase.Waiting?)
    && q.budget.waiters == B.Without(p.budget.waiters, Lost(p, q))
  }

  lemma ForwardTrans(p: Pool, q: Pool, r: Pool)
    requires Forward(p, q) && Forward(q, r)
    ensures Forward(p, r)
  {
  }

  lemma CalmTrans(p: Pool, q: Pool, r: Pool)
    requires Calm(p, q) && Calm(q, r)
    ensures Calm(p, r)
  {
    hide Forward;
    ForwardTrans(p, q, r);
    WithoutHas(p.budget.waiters, Lost(p, q));
    WithoutHas(q.budget.waiters, Lost(q, r));
    WithoutTwice(p.budget.waiters, Lost(p, q), Lost(q, r));
    assert Lost(p, r) == Lost(p, q) + Lost(q, r);
  }

  lemma SameQueueIsCalm(p: Pool, q: Pool)
    requires Forward(p, q) && q.budget.waiters == p.budget.waiters
    requires forall w :: w in q.work && (q.work[w].phase.Running? || q.work[w].phase.Waiting?) ==>
               w in p.work && p.work[w].phase == q.work[w].phase
    ensures Calm(p, q) && Lost(p, q) == {}
  {
    WithoutNone(p.budget.waiters, Lost(p, q));
  }

  lemma ItselfIsCalm(p: Pool)
    ensures Calm(p, p)
  {
    SameQueueIsCalm(p, p);
  }

  lemma ChargeIsCalm(p: Pool, h: Handle, kind: Kind, bytes: nat, phase: Phase)
    requires Early(phase)
    ensures Calm(p, Charge(p, h, kind, bytes, phase))
  {
    SameQueueIsCalm(p, Charge(p, h, kind, bytes, phase));
  }

  lemma RefuseIsCalm(p: Pool)
    ensures Calm(p, Refuse(p))
  {
    SameQueueIsCalm(p, Refuse(p));
  }

  lemma SettleIsCalm(p: Pool, w: WorkId)
    ensures Calm(p, Settle(p, w))
  {
    SameQueueIsCalm(p, Settle(p, w));
  }

  lemma {:induction false} SettleAllIsCalm(p: Pool, ws: seq<WorkId>)
    ensures Calm(p, SettleAll(p, ws)) && SettleAll(p, ws).budget.waiters == p.budget.waiters
    decreases |ws|
  {
    hide Calm;
    if ws == [] {
      ItselfIsCalm(p);
    } else {
      SettleIsCalm(p, ws[0]);
      SettleAllIsCalm(Settle(p, ws[0]), ws[1..]);
      CalmTrans(p, Settle(p, ws[0]), SettleAll(p, ws));
    }
  }

  lemma StartIsCalm(p: Pool, w: WorkId)
    requires w in p.work ==> p.work[w].phase.Queued?
    ensures Calm(p, Start(p, w))
  {
    SameQueueIsCalm(p, Start(p, w));
  }

  lemma BouncedIsCalm(p: Pool, h: Handle, kind: Kind, bytes: nat)
    ensures Calm(p, Settle(Charge(p, h, kind, bytes, Started), p.next))
  {
    hide Calm;
    ChargeIsCalm(p, h, kind, bytes, Started);
    SettleIsCalm(Charge(p, h, kind, bytes, Started), p.next);
    CalmTrans(p, Charge(p, h, kind, bytes, Started), Settle(Charge(p, h, kind, bytes, Started), p.next));
  }

  lemma WithoutOne(w: WorkId, gone: set<WorkId>)
    ensures B.Without([w], gone) == if w in gone then [] else [w]
  {
    assert [w][..0] == [];
  }

  lemma DistinctRest(s: seq<WorkId>)
    requires B.Distinct(s) && s != []
    ensures B.Distinct(s[1..]) && s[0] !in s[1..] && s == [s[0]] + s[1..]
  {
  }

  lemma {:induction false} RemoveIsWithout(s: seq<WorkId>, w: WorkId)
    requires B.Distinct(s)
    ensures B.Remove(s, w) == B.Without(s, {w})
  {
    hide B.Distinct;
    if s == [] {
      WithoutNone(s, {w});
    } else {
      DistinctRest(s);
      hide B.Without;
      WithoutOne(s[0], {w});
      WithoutConcat([s[0]], s[1..], {w});
      if s[0] == w {
        WithoutNone(s[1..], {w});
      } else {
        RemoveIsWithout(s[1..], w);
      }
    }
  }

  lemma AbandonIsCalm(p: Pool, limits: B.Limits, w: WorkId)
    requires Pools.Inv(p, limits)
    ensures Calm(p, Abandon(p, limits, w)) && Lost(p, Abandon(p, limits, w)) <= {w}
  {
    if w !in p.budget.waiters {
      ItselfIsCalm(p);
    } else {
      Pools.AbandonGrantsNobody(p, limits, w);
      RemoveIsWithout(p.budget.waiters, w);
      hide Abandon, Pools.Inv;
      ReturnedIsCalmMove(p, Abandon(p, limits, w), w);
    }
  }

  lemma ReturnedIsCalmMove(p: Pool, q: Pool, w: WorkId)
    requires q.work == SetPhase(p.work, w, Returned) && q.next == p.next && w in p.budget.waiters
    requires q.budget.waiters == B.Without(p.budget.waiters, {w})
    ensures Calm(p, q) && Lost(p, q) == {w}
  {
    WithoutHas(p.budget.waiters, {w});
    hide B.Without;
    assert Lost(p, q) == {w};
  }

  lemma {:induction false} AbandonAllIsCalm(p: Pool, limits: B.Limits, ws: seq<WorkId>)
    requires Pools.Inv(p, limits)
    ensures Calm(p, AbandonAll(p, limits, ws))
    ensures forall w :: w in Lost(p, AbandonAll(p, limits, ws)) ==> w in ws
    decreases |ws|
  {
    hide Calm, Pools.Inv, Abandon;
    if ws == [] {
      ItselfIsCalm(p);
    } else {
      var q := Abandon(p, limits, ws[0]);
      AbandonOne(p, limits, ws[0]);
      AbandonIsCalm(p, limits, ws[0]);
      AbandonAllIsCalm(q, limits, ws[1..]);
      CalmTrans(p, q, AbandonAll(p, limits, ws));
      assert ws[0] in ws && forall w :: w in ws[1..] ==> w in ws;
      var r := AbandonAll(p, limits, ws);
      assert forall w :: w in Lost(p, r) ==> w in Lost(p, q) || w in Lost(q, r);
    }
  }

  // ----- steps of the ledger that neither ask nor grant -----

  /** Aborted contexts stay aborted. */
  ghost predicate AbortedStay(s: State, t: State) {
    forall h :: h in s.sessions ==> h in t.sessions && (s.sessions[h].ContextAborted() ==> t.sessions[h].ContextAborted())
  }

  /** Whoever has lost a place in the queue belongs to an aborted context. */
  ghost predicate Excused(s: State, t: State, lost: set<WorkId>) {
    forall w :: w in lost ==>
      w in s.pool.work && s.pool.work[w].session in t.sessions && t.sessions[s.pool.work[w].session].ContextAborted()
  }

  ghost predicate CalmStep(s: State, t: State) {
    AbortedStay(s, t) && Calm(s.pool, t.pool) && Excused(s, t, Lost(s.pool, t.pool))
  }

  /** All work was there before, under the same session. */
  ghost predicate Shrinks(a: map<WorkId, Work>, b: map<WorkId, Work>) {
    forall w :: w in b ==> w in a && b[w].session == a[w].session
  }

  /** What ending sessions does. */
  ghost predicate Thins(s: State, t: State) {
    CalmStep(s, t) && Shrinks(s.pool.work, t.pool.work)
  }

  lemma ThinsTrans(s: State, t: State, u: State)
    requires Thins(s, t) && Thins(t, u)
    ensures Thins(s, u)
  {
    hide Calm;
    CalmTrans(s.pool, t.pool, u.pool);
    assert forall w :: w in Lost(s.pool, u.pool) ==> w in Lost(s.pool, t.pool) || w in Lost(t.pool, u.pool);
  }

  lemma SamePoolThins(s: State, t: State)
    requires AbortedStay(s, t) && t.pool == s.pool
    ensures Thins(s, t)
  {
    ItselfIsCalm(s.pool);
    hide Calm;
  }

  /** A move of the pool in which nobody loses a place. */
  lemma NobodyLost(s: State, t: State)
    requires AbortedStay(s, t) && Calm(s.pool, t.pool) && t.pool.budget.waiters == s.pool.budget.waiters
    ensures CalmStep(s, t)
  {
    hide Calm;
  }

  lemma AbandonSessionThins(s: State, cfg: Config, h: Handle)
    requires Pools.Inv(s.pool, cfg.handlers)
    ensures var p := AbandonSession(s, cfg, h);
            && Calm(s.pool, p) && Shrinks(s.pool.work, p.work)
            && forall w :: w in Lost(s.pool, p) ==> w in s.pool.work && s.pool.work[w].session == h
  {
    hide Calm, AbandonAll, WaitersOf, Pools.Inv;
    var ws := WaitersOf(s.pool.budget.waiters, s.pool.work, h);
    AbandonAllIsCalm(s.pool, cfg.handlers, ws);
    AbandonAllEffect(s.pool, cfg.handlers, ws);
  }

  lemma EmptiedThins(s: State, cfg: Config, h: Handle)
    requires Pools.Inv(s.pool, cfg.handlers) && h in s.sessions
    ensures var p := Emptied(s, cfg, h);
            && Calm(s.pool, p) && Shrinks(s.pool.work, p.work)
            && forall w :: w in Lost(s.pool, p) ==> w in s.pool.work && s.pool.work[w].session == h
  {
    hide Calm, AbandonSession, SettleAll, Pools.Inv;
    var a := AbandonSession(s, cfg, h);
    AbandonSessionThins(s, cfg, h);
    SettleAllIsCalm(a, s.sessions[h].tasks.pending);
    SettleAllShrinks(a, s.sessions[h].tasks.pending);
    CalmTrans(s.pool, a, Emptied(s, cfg, h));
  }

  lemma {:induction false} SettleAllShrinks(p: Pool, ws: seq<WorkId>)
    ensures Shrinks(p.work, SettleAll(p, ws).work)
    decreases |ws|
  {
    if ws != [] {
      SettleAllShrinks(Settle(p, ws[0]), ws[1..]);
    }
  }

  lemma TimeOutIsCalm(s: State, cfg: Config, h: Handle)
    requires Pools.Inv(s.pool, cfg.handlers) && h in s.sessions
    ensures CalmStep(s, TimeOutAdmission(s, cfg, h))
  {
    hide Calm, AbandonSession, Pools.Inv;
    AbandonSessionThins(s, cfg, h);
  }

  lemma ForceThins(s: State, cfg: Config, h: Handle)
    requires Pools.Inv(s.pool, cfg.handlers) && h in s.sessions
    ensures Thins(s, Force(s, cfg, h))
  {
    hide Calm, Emptied, Force, Pools.Inv;
    ForceIsEmptied(s, cfg, h);
    EmptiedThins(s, cfg, h);
  }

  lemma FinalizeThins(s: State, cfg: Config, h: Handle)
    requires Pools.Inv(s.pool, cfg.handlers) && h in s.sessions
    ensures Thins(s, Finalize(s, cfg, h))
  {
    hide Calm, Emptied, Pools.Inv;
    if s.sessions[h].finalized {
      FinalizeTwice(s, cfg, h);
      SamePoolThins(s, s);
    } else {
      FinalizeIsEmptied(s, cfg, h);
      EmptiedThins(s, cfg, h);
    }
    hide Finalize;
  }

  lemma {:induction false} StopIntakeAllThins(s: State, order: seq<Handle>)
    ensures Thins(s, StopIntakeAll(s, order)) && StopIntakeAll(s, order).pool == s.pool
    decreases |order|
  {
    hide Thins;
    if order == [] {
      SamePoolThins(s, s);
    } else {
      var t := if order[0] in s.sessions then StopIntake(s, order[0]) else s;
      SamePoolThins(s, t);
      StopIntakeAllThins(t, order[1..]);
      ThinsTrans(s, t, StopIntakeAll(s, order));
    }
  }

  lemma {:induction false} ForceAllThins(s: State, cfg: Config, order: seq<Handle>)
    requires Accounted(s, cfg) && forall k :: k in order ==> Forceable(s, k)
    ensures Thins(s, ForceAll(s, cfg, order))
    decreases |order|
  {
    hide Accounted, Force, Thins, Pools.Inv, Forceable;
    if order == [] {
      SamePoolThins(s, s);
    } else {
      assert order[0] in order && forall k :: k in order[1..] ==> k in order;
      ForceableStays(s, cfg, order[0], order);
      PoolIsOk(s, cfg);
      ForceThins(s, cfg, order[0]);
      ForceKeepsAccounts(s, cfg, order[0]);
      ForceAllThins(Force(s, cfg, order[0]), cfg, order[1..]);
      ThinsTrans(s, Force(s, cfg, order[0]), ForceAll(s, cfg, order));
    }
  }

  lemma {:induction false} FinalizeAllThins(s: State, cfg: Config, order: seq<Handle>)
    requires Accounted(s, cfg)
    ensures Thins(s, FinalizeAll(s, cfg, order))
    decreases |order|
  {
    hide Accounted, Finalize, Thins, Pools.Inv;
    SamePoolThins(s, s);
    if order != [] {
      var t := s;
      if order[0] in s.sessions {
        PoolIsOk(s, cfg);
        FinalizeThins(s, cfg, order[0]);
        FinalizeKeepsAccounts(s, cfg, order[0]);
        t := Finalize(s, cfg, order[0]);
      }
      FinalizeAllThins(t, cfg, order[1..]);
      ThinsTrans(s, t, FinalizeAll(s, cfg, order));
    }
  }

  lemma ServerIsCalm(s: State, cfg: Config, e: Srv.Event, order: seq<Handle>)
    requires Accounted(s, cfg) && Srv.Enabled(s.server, e) && Walks(s, e, order)
    ensures CalmStep(s, MoveServer(s, cfg, e, order))
  {
    hide Accounted, StopIntakeAll, ForceAll, FinalizeAll, Calm, Forceable, Srv.Step;
    SamePoolThins(s, s);
    match e {
      case StopCalled(_) =>
        if Srv.Stops(s.server) {
          var t := StopIntakeAll(s, order);
          StopIntakeAllThins(s, order);
          StopMakesForceable(s, cfg, order);
          ForceAllThins(t, cfg, order);
          ThinsTrans(s, t, ForceAll(t, cfg, order));
        }
      case DrainEnded =>
        DrainingIsForceable(s, cfg);
        ForceAllThins(s, cfg, order);
      case DriverStopped(_) => FinalizeAllThins(s, cfg, order);
      case _ =>
    }
  }

  lemma AbortIsCalm(s: State, cfg: Config, h: Handle)
    requires Accounted(s, cfg) && h in s.sessions
    ensures CalmStep(s, AbortSignal(s, cfg, h))
  {
    hide Accounted, Finalize, ReleaseAll, Thins, Pools.Inv;
    PoolIsOk(s, cfg);
    AbortIsMarked(s, cfg, h);
    var marked := Marked(s, h);
    var t := Finalize(marked, cfg, h);
    SamePoolThins(s, marked);
    FinalizeThins(marked, cfg, h);
    ThinsTrans(s, marked, t);
    ReleaseAllSamePool(t, h);
    SamePoolThins(t, ReleaseAll(t, h));
    ThinsTrans(s, t, ReleaseAll(t, h));
    ThinIsCalm(s, ReleaseAll(t, h));
  }

  lemma ThinIsCalm(s: State, t: State)
    requires Thins(s, t)
    ensures CalmStep(s, t)
  {
  }

  lemma ReleaseAllSamePool(s: State, h: Handle)
    requires h in s.sessions
    ensures ReleaseAll(s, h).pool == s.pool && AbortedStay(s, ReleaseAll(s, h))
  {
    hide StreamsOf;
  }

  lemma SubmitIsCalm(s: State, cfg: Config, h: Handle, bytes: nat)
    requires h in s.sessions
    ensures CalmStep(s, Submit(s, cfg, h, bytes))
  {
    hide Calm;
    ChargeIsCalm(s.pool, h, Task, bytes, Started);
    ChargeIsCalm(s.pool, h, Task, bytes, Queued);
    BouncedIsCalm(s.pool, h, Task, bytes);
    RefuseIsCalm(s.pool);
    NobodyLost(s, Submit(s, cfg, h, bytes));
  }

  /** A change of records alone, before a calm step, keeps it calm. */
  lemma CalmAfterRecords(s: State, t: State, u: State)
    requires AbortedStay(s, t) && t.pool == s.pool && CalmStep(t, u)
    ensures CalmStep(s, u)
  {
    hide Calm;
  }

  lemma PutIsCalm(s: State, h: Handle, m: Session)
    requires h in s.sessions && (s.sessions[h].ContextAborted() ==> m.ContextAborted())
    ensures AbortedStay(s, Put(s, h, m)) && CalmStep(s, Put(s, h, m))
  {
    ItselfIsCalm(s.pool);
    hide Calm;
  }

  lemma ResumeDrainIsCalm(s: State, cfg: Config, h: Handle)
    requires h in s.sessions
    ensures CalmStep(s, ResumeDrain(s, cfg, h))
  {
    hide Submit, CalmStep, AbortedStay;
    var m := s.sessions[h];
    PutIsCalm(s, h, EndDrain(m));
    PutIsCalm(s, h, DrainLoop(m, cfg));
    if m.feed.queue != [] {
      var t := Put(s, h, m.(feed := F.Taken(m.feed)));
      PutIsCalm(s, h, m.(feed := F.Taken(m.feed)));
      SubmitIsCalm(t, cfg, h, m.feed.queue[0].size);
      CalmAfterRecords(s, t, Submit(t, cfg, h, m.feed.queue[0].size));
    }
  }

  lemma ReadStreamIsCalm(s: State, cfg: Config, h: Handle, kind: StreamKind, k: StreamId, aborted: bool)
    requires h in s.sessions
    ensures CalmStep(s, ReadStream(s, cfg, h, kind, k, aborted))
  {
    hide Submit, CalmStep, Track;
    var m := s.sessions[h];
    PutIsCalm(s, h, m.(pumps := m.pumps - {StreamPump(kind)}));
    SameIsCalm(s);
    TrackStays(s, h, kind, k);
    var t := if aborted then s else Track(s, h, kind, k);
    SubmitIsCalm(t, cfg, h, 0);
    CalmAfterRecords(s, t, Submit(t, cfg, h, 0));
  }

  lemma SameIsCalm(s: State)
    ensures AbortedStay(s, s) && CalmStep(s, s)
  {
    SamePoolThins(s, s);
  }

  lemma TrackStays(s: State, h: Handle, kind: StreamKind, k: StreamId)
    requires h in s.sessions
    ensures var t := Track(s, h, kind, k); h in t.sessions && AbortedStay(s, t) && t.pool == s.pool
  {
  }

  lemma FinishIsCalm(s: State, cfg: Config, h: Handle, w: WorkId)
    requires Accounted(s, cfg) && h in s.sessions && w in s.pool.work && 0 < s.sessions[h].tasks.active
    ensures CalmStep(s, Finish(s, cfg, h, w))
  {
    hide Accounted, Calm, SlotOk, Finish, Settle, Start;
    FinishIsPutAndPool(s, cfg, h, w);
    AdmissionIsWork(s, cfg, h);
    FinishedIsCalmMove(s.pool, s.sessions[h], w, cfg, h);
    NobodyLost(s, Finish(s, cfg, h, w));
  }

  lemma FinishedIsCalmMove(p: Pool, m: Session, w: WorkId, cfg: Config, h: Handle)
    requires SlotOk(h, m, p.work, cfg.tasks)
    ensures Calm(p, AfterFinish(p, m, w)) && AfterFinish(p, m, w).budget.waiters == p.budget.waiters
  {
    hide Calm;
    SettleIsCalm(p, w);
    if m.tasks.pending != [] {
      var next := m.tasks.pending[0];
      assert next in m.tasks.pending;
      assert QueuedIn(p.work, next, h);
      hide SlotOk;
      StartIsCalm(Settle(p, w), next);
      CalmTrans(p, Settle(p, w), Start(Settle(p, w), next));
    }
  }

  lemma ReadDatagramIsCalm(s: State, cfg: Config, h: Handle, arrival: Arrival)
    requires h in s.sessions && 1 <= cfg.queueSize && |s.sessions[h].feed.queue| <= cfg.queueSize
    ensures CalmStep(s, ReadDatagram(s, cfg, h, arrival))
  {
    hide F.Offered, F.Judge, F.OfferedBytes, Calm;
    ItselfIsCalm(s.pool);
  }

  lemma SettleAdmissionIsCalm(s: State, h: Handle, w: WorkId)
    requires h in s.sessions
    ensures CalmStep(s, SettleAdmission(s, h, w))
  {
    hide Calm;
    SettleIsCalm(s.pool, w);
    NobodyLost(s, SettleAdmission(s, h, w));
  }

  /** The steps that bring nobody to the queue and grant nobody. */
  predicate Neither(s: State, cfg: Config, e: Event) {
    match e
    case TaskBegan(_) => false
    case CallReturned(_) => false
    case Offered(_, o) => !(Judge(s, cfg, o).Admitted? && !o.aborted)
    case _ => true
  }

  lemma OtherStepsAreCalm(s: State, cfg: Config, e: Event)
    requires cfg.Valid() && Accounted(s, cfg) && Enabled(s, cfg, e) && Neither(s, cfg, e)
    ensures CalmStep(s, Step(s, cfg, e))
  {
    hide Accounted, Accept, Submit, Finish, AbortSignal, MoveServer, Settle, SettleAdmission, Calm, Pools.Inv;
    hide AbandonSession, ReadDatagram, ResumeDrain, ReadStream, TimeOutAdmission, IP.Release, Judge;
    PoolIsOk(s, cfg);
    ItselfIsCalm(s.pool);
    match e {
      case Offered(h, offer) => RefusalIsCalm(s, cfg, h, offer);
      case AdmissionTimedOut(h) => TimeOutIsCalm(s, cfg, h);
      case DatagramRead(h, arrival) => ReadDatagramIsCalm(s, cfg, h, arrival);
      case DrainResumed(h) => ResumeDrainIsCalm(s, cfg, h);
      case StreamRead(h, kind, k, aborted) => ReadStreamIsCalm(s, cfg, h, kind, k, aborted);
      case TaskSettled(w) => FinishIsCalm(s, cfg, s.pool.work[w].session, w);
      case AdmissionWorkSettled(w) => SettleAdmissionIsCalm(s, s.pool.work[w].session, w);
      case SignalAborted(h) => AbortIsCalm(s, cfg, h);
      case ServerMoved(move, order) => ServerIsCalm(s, cfg, move, order);
      case _ =>
    }
  }

  /** A refused session asks for nothing. */
  lemma RefusalIsCalm(s: State, cfg: Config, h: Handle, o: Offer)
    requires cfg.Valid() && Accounted(s, cfg) && h !in s.sessions
    requires !(Judge(s, cfg, o).Admitted? && !o.aborted)
    ensures CalmStep(s, Accept(s, cfg, h, o))
  {
    hide Accounted, IP.Acquire, IP.Release, Charge, Settle, Enter, Finalize, Calm;
    if Judge(s, cfg, o).Admitted? {
      AbortedOfferIsCalm(s, cfg, h, o);
    } else {
      ItselfIsCalm(s.pool);
      BouncedIsCalm(s.pool, h, Admission, 0);
      BouncedQueue(s.pool, h);
      NobodyLost(s, Accept(s, cfg, h, o));
    }
  }

  /** Nor does a session whose signal had aborted already. */
  lemma AbortedOfferIsCalm(s: State, cfg: Config, h: Handle, o: Offer)
    requires cfg.Valid() && Accounted(s, cfg) && h !in s.sessions && Judge(s, cfg, o).Admitted? && o.aborted
    ensures CalmStep(s, Accept(s, cfg, h, o))
  {
    hide Accounted, Accept, IP.Acquire, Charge, Settle, Finalize, Pools.Inv, Thins;
    PoolIsOk(s, cfg);
    BouncedIsOk(s, cfg, h, Admission, 0);
    var t := Added(s, cfg, h, o).(pool := Bounced(s.pool, h), sessions := s.sessions[h := NewSession(o)]);
    AcceptIsFinalize(s, cfg, h, o, t);
    FinalizeThins(t, cfg, h);
    BouncedThins(s, cfg, h, t);
    ThinsTrans(s, t, Finalize(t, cfg, h));
    ThinIsCalm(s, Finalize(t, cfg, h));
  }

  lemma BouncedQueue(p: Pool, h: Handle)
    ensures Bounced(p, h).budget.waiters == p.budget.waiters
  {
  }

  lemma BouncedThins(s: State, cfg: Config, h: Handle, t: State)
    requires Pools.Inv(s.pool, cfg.handlers) && h !in s.sessions
    requires t.pool == Bounced(s.pool, h) && t.sessions.Keys == s.sessions.Keys + {h}
    requires forall k :: k in s.sessions ==> k in t.sessions && t.sessions[k] == s.sessions[k]
    ensures Thins(s, t)
  {
    BouncedIsCalm(s.pool, h, Admission, 0);
    BouncedQueue(s.pool, h);
    NobodyLost(s, t);
    hide Calm;
  }

  // ----- arrivals and grants -----

  /** Who joins the budget in a step: whoever asks with a context that has not aborted. */
  function Arrivals(s: State, cfg: Config, e: Event): seq<WorkId> {
    match e
    case TaskBegan(w) =>
      if w in s.pool.work && s.pool.work[w].session in s.sessions && !s.sessions[s.pool.work[w].session].ContextAborted()
      then [w] else []
    case Offered(_, o) => if Judge(s, cfg, o).Admitted? && !o.aborted then [s.pool.next] else []
    case _ => []
  }

  /** Who is granted a place in a step: an arrival at once, or the oldest waiting call when a place is freed. */
  function Grants(s: State, cfg: Config, e: Event): seq<WorkId> {
    match e
    case CallReturned(_) => if s.pool.budget.waiters == [] then [] else [s.pool.budget.waiters[0]]
    case _ => if s.pool.budget.Entering(cfg.handlers, false).Granted? then Arrivals(s, cfg, e) else []
  }

  function InBudget(p: Pool, w: WorkId): bool {
    w in p.work && (p.work[w].phase.Running? || p.work[w].phase.Waiting?)
  }

  function IsRunning(p: Pool, w: WorkId): bool {
    w in p.work && p.work[w].phase.Running?
  }

  /** Who leaves the queue in a step without having been granted. */
  function GivesUp(before: seq<WorkId>, after: seq<WorkId>, granted: seq<WorkId>): set<WorkId> {
    set w | w in before && w !in after && w !in granted
  }

  /** Arrivals go to the end of the queue, grants come from its front, and the others keep their order. */
  ghost predicate QueueInOrder(before: seq<WorkId>, after: seq<WorkId>, arrived: seq<WorkId>, granted: seq<WorkId>) {
    granted + after == B.Without(before + arrived, GivesUp(before, after, granted))
  }

  /** Who arrives is who comes to wait or run, and nobody asks twice. */
  ghost predicate ArrivalsSeen(p: Pool, q: Pool, arrived: seq<WorkId>) {
    && |arrived| <= 1
    && (forall w :: w in arrived <==> InBudget(q, w) && !InBudget(p, w))
    && (forall w :: w in arrived ==> p.next <= w || (w in p.work && Early(p.work[w].phase)))
  }

  /** Who is granted is who comes to run. */
  ghost predicate GrantsSeen(p: Pool, q: Pool, granted: seq<WorkId>) {
    forall w :: w in granted <==> IsRunning(q, w) && !IsRunning(p, w)
  }

  /** What every step does to the queue; whoever gives up belongs to an aborted context. */
  ghost predicate InOrder(s: State, t: State, arrived: seq<WorkId>, granted: seq<WorkId>) {
    && QueueInOrder(s.pool.budget.waiters, t.pool.budget.waiters, arrived, granted)
    && Excused(s, t, GivesUp(s.pool.budget.waiters, t.pool.budget.waiters, granted))
    && ArrivalsSeen(s.pool, t.pool, arrived)
    && GrantsSeen(s.pool, t.pool, granted)
    && Forward(s.pool, t.pool)
  }

  lemma CalmIsInOrder(s: State, t: State)
    requires CalmStep(s, t)
    ensures InOrder(s, t, [], [])
  {
    assert s.pool.budget.waiters + [] == s.pool.budget.waiters;
    assert [] + t.pool.budget.waiters == t.pool.budget.waiters;
    assert GivesUp(s.pool.budget.waiters, t.pool.budget.waiters, []) == Lost(s.pool, t.pool);
    hide Forward, Excused;
  }

  lemma NobodyGivesUp(before: seq<WorkId>, after: seq<WorkId>, arrived: seq<WorkId>, granted: seq<WorkId>)
    requires granted + after == before + arrived
    requires forall w :: w in before ==> w in after || w in granted
    ensures QueueInOrder(before, after, arrived, granted) && GivesUp(before, after, granted) == {}
  {
    assert GivesUp(before, after, granted) == {};
    WithoutNone(before + arrived, {});
  }

  /** The work that asks: a task whose slot was taken earlier, or an admission charged in the same step. */
  ghost predicate Asks(p: Pool, asking: Pool, w: WorkId) {
    && p.next <= asking.next
    && asking.budget.waiters == p.budget.waiters
    && w in asking.work && asking.work[w].phase.Started? && (w in p.work || p.next <= w)
    && (forall x :: x in p.work ==> x in asking.work && asking.work[x] == p.work[x])
    && (forall x :: x in asking.work && x != w ==> x in p.work)
  }

  lemma EntersQueue(asking: Pool, limits: B.Limits, w: WorkId)
    requires asking.budget.Bounded(limits)
    ensures var granted := if asking.budget.Entering(limits, false).Granted? then [w] else [];
            var before, after := asking.budget.waiters, Enter(asking, limits, w, false).budget.waiters;
            QueueInOrder(before, after, [w], granted) && GivesUp(before, after, granted) == {}
  {
    var granted := if asking.budget.Entering(limits, false).Granted? then [w] else [];
    var before, after := asking.budget.waiters, Enter(asking, limits, w, false).budget.waiters;
    assert granted + after == before + [w];
    assert forall x :: x in before ==> x in before + [w];
    NobodyGivesUp(before, after, [w], granted);
  }

  lemma EntersSeen(p: Pool, asking: Pool, limits: B.Limits, w: WorkId)
    requires Asks(p, asking, w)
    ensures var q := Enter(asking, limits, w, false);
            && ArrivalsSeen(p, q, [w])
            && GrantsSeen(p, q, if asking.budget.Entering(limits, false).Granted? then [w] else [])
            && Forward(p, q)
  {
    var q := Enter(asking, limits, w, false);
    assert forall x :: x in q.work <==> x in asking.work;
    assert forall x :: x in asking.work && x != w ==> q.work[x] == asking.work[x];
  }

  lemma TaskAsksInOrder(s: State, cfg: Config, w: WorkId)
    requires cfg.Valid() && Accounted(s, cfg) && AsksBudget(s, w)
    ensures var e := TaskBegan(w); InOrder(s, Begin(s, cfg, w), Arrivals(s, cfg, e), Grants(s, cfg, e))
  {
    hide Accounted, Enter, QueueInOrder, ArrivalsSeen, GrantsSeen, Forward, Pools.Inv;
    PoolIsOk(s, cfg);
    PoolIsBounded(s.pool, cfg.handlers);
    if s.sessions[s.pool.work[w].session].ContextAborted() {
      RefusedIsCalm(s, cfg, w);
      CalmIsInOrder(s, Begin(s, cfg, w));
      assert Grants(s, cfg, TaskBegan(w)) == [];
    } else {
      EntersQueue(s.pool, cfg.handlers, w);
      EntersSeen(s.pool, s.pool, cfg.handlers, w);
    }
  }

  lemma PoolIsBounded(p: Pool, limits: B.Limits)
    requires Pools.Inv(p, limits)
    ensures p.budget.Bounded(limits)
    ensures forall w :: w in p.budget.waiters ==> w in p.work && p.work[w].phase.Waiting?
    ensures forall w :: w in p.work ==> w < p.next
  {
  }

  lemma RefusedIsCalm(s: State, cfg: Config, w: WorkId)
    requires AsksBudget(s, w) && s.sessions[s.pool.work[w].session].ContextAborted()
    ensures CalmStep(s, Begin(s, cfg, w))
  {
    SameQueueIsCalm(s.pool, Begin(s, cfg, w).pool);
    hide Calm;
  }

  lemma AdmissionAsksInOrder(s: State, cfg: Config, h: Handle, o: Offer)
    requires cfg.Valid() && Accounted(s, cfg) && h !in s.sessions && Judge(s, cfg, o).Admitted? && !o.aborted
    ensures var e := Offered(h, o); InOrder(s, Accept(s, cfg, h, o), Arrivals(s, cfg, e), Grants(s, cfg, e))
  {
    hide Accounted, Accept, Enter, QueueInOrder, ArrivalsSeen, GrantsSeen, Forward, Pools.Inv, Judge;
    PoolIsOk(s, cfg);
    PoolIsBounded(s.pool, cfg.handlers);
    AcceptIsAdmit(s, cfg, h, o);
    var asking := Charge(s.pool, h, Admission, 0, Started);
    ChargedAsks(s.pool, h);
    EntersQueue(asking, cfg.handlers, s.pool.next);
    EntersSeen(s.pool, asking, cfg.handlers, s.pool.next);
  }

  lemma ChargedAsks(p: Pool, h: Handle)
    requires p.next !in p.work
    ensures Asks(p, Charge(p, h, Admission, 0, Started), p.next)
  {
  }

  lemma ReturnInOrder(s: State, cfg: Config, w: WorkId)
    requires cfg.Valid() && Accounted(s, cfg) && Enabled(s, cfg, CallReturned(w))
    ensures var e := CallReturned(w); InOrder(s, Step(s, cfg, e), Arrivals(s, cfg, e), Grants(s, cfg, e))
  {
    hide Accounted, Leave, QueueInOrder, ArrivalsSeen, GrantsSeen, Forward, Pools.Inv;
    PoolIsOk(s, cfg);
    LeavesQueue(s.pool, cfg.handlers, w);
    LeavesSeen(s.pool, cfg.handlers, w);
  }

  lemma LeavesQueue(p: Pool, limits: B.Limits, w: WorkId)
    requires Pools.Inv(p, limits) && w in p.work && p.work[w].phase.Running?
    ensures 0 < p.budget.running
    ensures var granted := if p.budget.waiters == [] then [] else [p.budget.waiters[0]];
            var before, after := p.budget.waiters, Leave(p, limits, w).budget.waiters;
            QueueInOrder(before, after, [], granted) && GivesUp(before, after, granted) == {}
  {
    hide Leave, SettledOnce;
    LeaveGrantsHead(p, limits, w);
    B.LeaveGrantsTheOldest(p.budget, limits);
    var before := p.budget.waiters;
    var after := Leave(p, limits, w).budget.waiters;
    if before == [] {
      NobodyGivesUp(before, after, [], []);
    } else {
      assert before == [before[0]] + before[1..] && before + [] == before;
      NobodyGivesUp(before, after, [], [before[0]]);
    }
  }

  lemma LeavesSeen(p: Pool, limits: B.Limits, w: WorkId)
    requires Pools.Inv(p, limits) && w in p.work && p.work[w].phase.Running?
    ensures 0 < p.budget.running
    ensures var granted := if p.budget.waiters == [] then [] else [p.budget.waiters[0]];
            var q := Leave(p, limits, w);
            ArrivalsSeen(p, q, []) && GrantsSeen(p, q, granted) && Forward(p, q)
  {
    hide SettledOnce, B.Budget.Leave;
    LeaveGrantsHead(p, limits, w);
    var q := Leave(p, limits, w);
    assert q.next == p.next;
    hide Leave;
    if p.budget.waiters != [] {
      assert p.budget.waiters[0] in p.budget.waiters;
    }
  }

  /** Every step of the whole system, of any session and of the server, treats the queue in order. */
  lemma EveryStepIsInOrder(s: State, cfg: Config, e: Event)
    requires cfg.Valid() && Accounted(s, cfg) && Enabled(s, cfg, e)
    ensures InOrder(s, Step(s, cfg, e), Arrivals(s, cfg, e), Grants(s, cfg, e))
  {
    hide Accounted, Step, Enabled, InOrder, Arrivals, Grants, CalmStep;
    if Neither(s, cfg, e) {
      OtherStepsAreCalm(s, cfg, e);
      NobodyComes(s, cfg, e);
      CalmIsInOrder(s, Step(s, cfg, e));
    } else {
      SomebodyComesInOrder(s, cfg, e);
    }
  }

  lemma NobodyComes(s: State, cfg: Config, e: Event)
    requires Neither(s, cfg, e)
    ensures Arrivals(s, cfg, e) == [] && Grants(s, cfg, e) == []
  {
    hide Judge;
  }

  lemma SomebodyComesInOrder(s: State, cfg: Config, e: Event)
    requires cfg.Valid() && Accounted(s, cfg) && Enabled(s, cfg, e) && !Neither(s, cfg, e)
    ensures InOrder(s, Step(s, cfg, e), Arrivals(s, cfg, e), Grants(s, cfg, e))
  {
    hide Accounted, Accept, Begin, InOrder, Arrivals, Grants, Judge;
    match e {
      case TaskBegan(w) => TaskAsksInOrder(s, cfg, w);
      case Offered(h, o) => AdmissionAsksInOrder(s, cfg, h, o);
      case CallReturned(w) => ReturnInOrder(s, cfg, w);
    }
  }

  // ----- over whole runs -----

  /** Everyone who has arrived, everyone who was granted, in order, and whoever gave up. */
  datatype Trace = Trace(arrived: seq<WorkId>, granted: seq<WorkId>, gone: set<WorkId>)

  ghost function TraceOf(cfg: Config, states: seq<State>, events: seq<Event>, k: nat): Trace
    requires k <= |events| < |states|
  {
    if k == 0 then Trace([], [], {})
    else
      var before := TraceOf(cfg, states, events, k - 1);
      var s, t, e := states[k - 1], states[k], events[k - 1];
      Trace(before.arrived + Arrivals(s, cfg, e),
            before.granted + Grants(s, cfg, e),
            before.gone + GivesUp(s.pool.budget.waiters, t.pool.budget.waiters, Grants(s, cfg, e)))
  }

  /** The account of the queue, and that whoever has arrived cannot arrive again. */
  ghost predicate Served(tr: Trace, p: Pool) {
    && tr.granted + p.budget.waiters == B.Without(tr.arrived, tr.gone)
    && B.Distinct(tr.arrived)
    && (forall w :: w in tr.gone ==> w in tr.arrived)
    && (forall w :: w in tr.arrived ==> w < p.next && (w in p.work ==> !Early(p.work[w].phase)))
  }

  lemma ServedOn(tr: Trace, s: State, t: State, arrived: seq<WorkId>, granted: seq<WorkId>)
    requires Served(tr, s.pool) && InOrder(s, t, arrived, granted)
    requires forall w :: w in t.pool.work ==> w < t.pool.next
    ensures var gone := GivesUp(s.pool.budget.waiters, t.pool.budget.waiters, granted);
            Served(Trace(tr.arrived + arrived, tr.granted + granted, tr.gone + gone), t.pool)
  {
    hide QueueInOrder, Excused, GrantsSeen, Forward, ArrivalsSeen, B.Without, B.Distinct, GivesUp;
    var before := s.pool.budget.waiters;
    var gone := GivesUp(before, t.pool.budget.waiters, granted);
    StillArrived(tr, s, t, arrived);
    ServedQueue(tr, before, t.pool.budget.waiters, arrived, granted);
    OnlyFromTheQueue(before, t.pool.budget.waiters, granted);
    WithoutHas(tr.arrived, tr.gone);
    assert forall w :: w in before ==> w in tr.granted + before;
  }

  lemma ServedQueue(tr: Trace, before: seq<WorkId>, after: seq<WorkId>, arrived: seq<WorkId>, granted: seq<WorkId>)
    requires tr.granted + before == B.Without(tr.arrived, tr.gone) && B.Distinct(tr.arrived)
    requires forall w :: w in tr.gone ==> w in tr.arrived
    requires forall w :: w in arrived ==> w !in tr.arrived
    requires QueueInOrder(before, after, arrived, granted)
    ensures tr.granted + granted + after ==
            B.Without(tr.arrived + arrived, tr.gone + GivesUp(before, after, granted))
  {
    hide B.Without, B.Distinct, GivesUp;
    var gone := GivesUp(before, after, granted);
    OnlyFromTheQueue(before, after, granted);
    B.WithoutIsPart(tr.arrived, tr.gone);
    GrantedKeepTheirPlace(tr.granted, before, gone);
    WithoutNone(arrived, tr.gone);
    calc {
      B.Without(tr.arrived + arrived, tr.gone + gone);
    == { WithoutTwice(tr.arrived + arrived, tr.gone, gone); }
      B.Without(B.Without(tr.arrived + arrived, tr.gone), gone);
    == { WithoutConcat(tr.arrived, arrived, tr.gone); }
      B.Without(tr.granted + before + arrived, gone);
    == { assert tr.granted + before + arrived == tr.granted + (before + arrived); }
      B.Without(tr.granted + (before + arrived), gone);
    == { WithoutConcat(tr.granted, before + arrived, gone); }
      tr.granted + (granted + after);
    ==
      tr.granted + granted + after;
    }
  }

  lemma OnlyFromTheQueue(before: seq<WorkId>, after: seq<WorkId>, granted: seq<WorkId>)
    ensures forall w :: w in GivesUp(before, after, granted) ==> w in before
  {
  }

  lemma GrantedKeepTheirPlace(granted: seq<WorkId>, before: seq<WorkId>, gone: set<WorkId>)
    requires B.Distinct(granted + before) && forall w :: w in gone ==> w in before
    ensures B.Without(granted, gone) == granted
  {
    forall w | w in granted ensures w !in gone {
      var i :| 0 <= i < |granted| && granted[i] == w;
      var all := granted + before;
      assert all[i] == w;
      assert forall j :: 0 <= j < |before| ==> all[|granted| + j] == before[j];
    }
    WithoutNone(granted, gone);
  }

  lemma StillArrived(tr: Trace, s: State, t: State, arrived: seq<WorkId>)
    requires Served(tr, s.pool) && ArrivalsSeen(s.pool, t.pool, arrived) && Forward(s.pool, t.pool)
    requires forall w :: w in t.pool.work ==> w < t.pool.next
    ensures forall w :: w in arrived ==> w !in tr.arrived
    ensures B.Distinct(tr.arrived + arrived)
    ensures forall w :: w in tr.arrived + arrived ==>
              w < t.pool.next && (w in t.pool.work ==> !Early(t.pool.work[w].phase))
  {
    if arrived == [] {
      assert tr.arrived + arrived == tr.arrived;
    } else {
      assert arrived == [arrived[0]];
      B.AppendKeepsDistinct(tr.arrived, arrived[0]);
    }
  }

  /** In every run of the whole system: everyone granted so far, in the order of the grants, followed by the
      queue, is exactly everyone who arrived and did not give up, in the order of arrival - over admissions
      and the tasks of all sessions alike. */
  lemma {:induction false} EveryRunServesInOrder(cfg: Config, states: seq<State>, events: seq<Event>, k: nat)
    requires IsRun(cfg, states, events) && k < |states|
    ensures k <= |events| < |states| && Served(TraceOf(cfg, states, events, k), states[k].pool)
  {
    hide IsRun, Served, Step, Enabled, Accounted, Arrivals, Grants, Pools.Inv;
    RunLength(cfg, states, events);
    if k == 0 {
      RunBegins(cfg, states, events);
    } else {
      EveryRunServesInOrder(cfg, states, events, k - 1);
      EveryRunIsAccounted(cfg, states, events, k - 1);
      EveryRunIsAccounted(cfg, states, events, k);
      RunEnables(cfg, states, events, k - 1);
      EveryStepIsInOrder(states[k - 1], cfg, events[k - 1]);
      PoolIsOk(states[k], cfg);
      PoolIsBounded(states[k].pool, cfg.handlers);
      hide InOrder;
      ServedOn(TraceOf(cfg, states, events, k - 1), states[k - 1], states[k],
               Arrivals(states[k - 1], cfg, events[k - 1]), Grants(states[k - 1], cfg, events[k - 1]));
    }
  }

  lemma RunBegins(cfg: Config, states: seq<State>, events: seq<Event>)
    requires IsRun(cfg, states, events)
    ensures |events| < |states| && Served(TraceOf(cfg, states, events, 0), states[0].pool)
  {
    hide Step, Enabled;
    assert [] + states[0].pool.budget.waiters == [];
  }
}
