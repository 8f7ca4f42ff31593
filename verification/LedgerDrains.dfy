/**
  Who wakes a datagram drain loop
  (packages/nest-webtransport/src/server/webtransport-runtime.ts:785-831,
  packages/nest-webtransport/src/execution/bounded-task-scheduler.ts:89-118, 151-190).

  The loop of a session takes a datagram only when the session's scheduler has room, and otherwise waits
  for it. The scheduler's other customers - the stream pumps - take and give back the same room meanwhile.
*/
module LedgerDrains {
  import opened Sums
  import opened Pools
  import opened Ledgers
  import opened LedgerInvariant
  import opened LedgerSteps
  import opened LedgerEnds
  import opened LedgerRuns
  import opened LedgerTheorems
  import opened LedgerProgress
  import F = Feeds
  import IP = Slots
  import Srv = Servers

  // ----- in every state -----

  /** A drain loop waits for capacity only while its session's scheduler is open and every place in it,
      running and pending, is taken: by charged tasks of that session, one of which has a slot and has not
      settled. */
  lemma WaitsOnlyForAFullScheduler(cfg: Config, states: seq<State>, events: seq<Event>, k: nat, h: Handle)
    returns (w: WorkId)
    requires IsRun(cfg, states, events) && k < |states| && h in states[k].sessions
    requires states[k].sessions[h].feed.drain.AwaitingCapacity?
    ensures var s := states[k]; var m := s.sessions[h];
            && m.tasks.accepting && !m.signalAborted && !m.intakeAborted
            && m.tasks.active == cfg.tasks.maxConcurrent && |m.tasks.pending| == cfg.tasks.maxPending
            && w in s.pool.work && s.pool.work[w].session == h && s.pool.work[w].kind.Task? && !s.pool.work[w].phase.Queued?
  {
    hide IsRun, Accounted, QueuedIn, AdmissionOf;
    EveryRunIsAccounted(cfg, states, events, k);
    RunLength(cfg, states, events);
    SessionIsOk(states[k], cfg, h);
    AdmissionIsWork(states[k], cfg, h);
    w := SomebodyRuns(states[k].pool.work, h);
  }

  lemma SomebodyRuns(work: map<WorkId, Work>, h: Handle) returns (w: WorkId)
    requires 0 < Sum(work, ActiveIn(h))
    ensures w in work && work[w].session == h && work[w].kind.Task? && !work[w].phase.Queued?
  {
    if !exists w :: w in work && ActiveIn(h)(work[w]) != 0 {
      SumZero(work, ActiveIn(h));
    }
    w :| w in work && ActiveIn(h)(work[w]) != 0;
  }

  /** A datagram never waits in a session that may read while its scheduler has room and nobody is about to
      wake its drain loop: the loop has been woken, or it is handling the outcome of the datagram before. */
  lemma RoomIsNeverIdle(cfg: Config, states: seq<State>, events: seq<Event>, k: nat, h: Handle)
    requires IsRun(cfg, states, events) && k < |states| && h in states[k].sessions
    requires var m := states[k].sessions[h]; m.feed.queue != [] && m.Reading() && m.tasks.HasCapacity(cfg.tasks)
    ensures Enabled(states[k], cfg, DrainResumed(h)) || Enabled(states[k], cfg, DrainContinued(h))
  {
    hide IsRun, Accounted, F.Ok, RetirementOk;
    EveryRunIsAccounted(cfg, states, events, k);
    SessionIsOk(states[k], cfg, h);
  }

  // ----- from one state to the next -----

  /** Between two moments at which the loop itself does not move: waiting goes on, or ends because there is
      nothing to wait for any more; and a loop that has been woken stays so. */
  ghost predicate Patient(m: Session, m': Session, cfg: Config) {
    && (m.feed.drain.AwaitingCapacity? ==>
          || m'.feed.drain.AwaitingCapacity?
          || (m'.feed.drain.Resuming? && (m'.tasks.HasCapacity(cfg.tasks) || !m'.tasks.accepting)))
    && (m.feed.drain.Resuming? ==> m'.feed.drain.Resuming?)
  }

  /** What ending sessions does: a waiting loop is woken when the scheduler closes, which is for good. */
  ghost predicate Closes(m: Session, m': Session) {
    && (m'.tasks.accepting ==> m.tasks.accepting)
    && (m.feed.drain.AwaitingCapacity? ==> m'.feed.drain.AwaitingCapacity? || (m'.feed.drain.Resuming? && !m'.tasks.accepting))
    && (m.feed.drain.Resuming? ==> m'.feed.drain.Resuming?)
  }

  ghost predicate ClosesAt(s: State, t: State, h: Handle)
    requires h in s.sessions
  {
    h in t.sessions && Closes(s.sessions[h], t.sessions[h])
  }

  lemma FinalizeClosesAt(s: State, cfg: Config, k: Handle, h: Handle)
    requires k in s.sessions && h in s.sessions
    ensures ClosesAt(s, Finalize(s, cfg, k), h)
  {
    hide AbandonSession, SettleAll, BytesOf;
  }

  lemma ForceClosesAt(s: State, cfg: Config, k: Handle, h: Handle)
    requires k in s.sessions && h in s.sessions
    ensures ClosesAt(s, Force(s, cfg, k), h)
  {
    hide AbandonSession, SettleAll, BytesOf;
  }

  lemma {:induction false} StopIntakeAllClosesAt(s: State, order: seq<Handle>, h: Handle)
    requires h in s.sessions
    ensures ClosesAt(s, StopIntakeAll(s, order), h)
    decreases |order|
  {
    if order != [] {
      var t := if order[0] in s.sessions then StopIntake(s, order[0]) else s;
      StopIntakeAllClosesAt(t, order[1..], h);
    }
  }

  lemma {:induction false} ForceAllClosesAt(s: State, cfg: Config, order: seq<Handle>, h: Handle)
    requires h in s.sessions
    ensures ClosesAt(s, ForceAll(s, cfg, order), h)
    decreases |order|
  {
    hide Force;
    if order != [] {
      var t := s;
      if order[0] in s.sessions {
        ForceClosesAt(s, cfg, order[0], h);
        t := Force(s, cfg, order[0]);
      }
      ForceAllClosesAt(t, cfg, order[1..], h);
    }
  }

  lemma {:induction false} FinalizeAllClosesAt(s: State, cfg: Config, order: seq<Handle>, h: Handle)
    requires h in s.sessions
    ensures ClosesAt(s, FinalizeAll(s, cfg, order), h)
    decreases |order|
  {
    hide Finalize;
    if order != [] {
      var t := s;
      if order[0] in s.sessions {
        FinalizeClosesAt(s, cfg, order[0], h);
        t := Finalize(s, cfg, order[0]);
      }
      FinalizeAllClosesAt(t, cfg, order[1..], h);
    }
  }

  lemma ServerClosesAt(s: State, cfg: Config, e: Srv.Event, order: seq<Handle>, h: Handle)
    requires Srv.Enabled(s.server, e) && h in s.sessions
    ensures ClosesAt(s, MoveServer(s, cfg, e, order), h)
  {
    hide StopIntakeAll, ForceAll, FinalizeAll, Srv.Step;
    match e {
      case StopCalled(_) =>
        var t := StopIntakeAll(s, order);
        StopIntakeAllClosesAt(s, order, h);
        ForceAllClosesAt(t, cfg, order, h);
      case DrainEnded => ForceAllClosesAt(s, cfg, order, h);
      case DriverStopped(_) => FinalizeAllClosesAt(s, cfg, order, h);
      case _ =>
    }
  }

  lemma AbortClosesAt(s: State, cfg: Config, k: Handle, h: Handle)
    requires k in s.sessions && h in s.sessions
    ensures ClosesAt(s, AbortSignal(s, cfg, k), h)
  {
    hide Finalize, ReleaseAll;
    AbortIsMarked(s, cfg, k);
    FinalizeClosesAt(Marked(s, k), cfg, k, h);
    ReleaseSameDrain(Finalize(Marked(s, k), cfg, k), k, h);
  }

  lemma ReleaseSameDrain(s: State, k: Handle, h: Handle)
    requires k in s.sessions && h in s.sessions
    ensures var t := ReleaseAll(s, k);
            && h in t.sessions && t.sessions[h].feed == s.sessions[h].feed && t.sessions[h].tasks == s.sessions[h].tasks
  {
    hide StreamsOf;
  }

  ghost predicate SameDrain(s: State, t: State, h: Handle)
    requires h in s.sessions
  {
    h in t.sessions && t.sessions[h].feed.drain == s.sessions[h].feed.drain
  }

  lemma SubmitSameDrain(s: State, cfg: Config, k: Handle, bytes: nat, h: Handle)
    requires k in s.sessions && h in s.sessions
    ensures SameDrain(s, Submit(s, cfg, k, bytes), h)
  {
    hide Charge, Settle, Refuse;
  }

  lemma AcceptSameDrain(s: State, cfg: Config, k: Handle, o: Offer, h: Handle)
    requires k !in s.sessions && h in s.sessions
    ensures SameDrain(s, Accept(s, cfg, k, o), h)
  {
    hide Accept;
    AcceptKeepsOthers(s, cfg, k, o);
  }

  lemma ReadDatagramSameDrain(s: State, cfg: Config, k: Handle, arrival: Arrival, h: Handle)
    requires k in s.sessions && 1 <= cfg.queueSize && |s.sessions[k].feed.queue| <= cfg.queueSize
    requires h in s.sessions && !s.sessions[h].feed.drain.NotDraining?
    ensures SameDrain(s, ReadDatagram(s, cfg, k, arrival), h)
  {
    hide F.Judge;
  }

  lemma ResumeDrainSameDrain(s: State, cfg: Config, k: Handle, h: Handle)
    requires k in s.sessions && h in s.sessions && k != h
    ensures SameDrain(s, ResumeDrain(s, cfg, k), h)
  {
    hide Submit;
    var m := s.sessions[k];
    if m.feed.queue != [] {
      SubmitSameDrain(Put(s, k, m.(feed := F.Taken(m.feed))), cfg, k, m.feed.queue[0].size, h);
    }
  }

  lemma ReadStreamSameDrain(s: State, cfg: Config, k: Handle, kind: StreamKind, id: StreamId, aborted: bool, h: Handle)
    requires k in s.sessions && h in s.sessions
    ensures SameDrain(s, ReadStream(s, cfg, k, kind, id, aborted), h)
  {
    hide Submit;
    SubmitSameDrain(if aborted then s else Track(s, k, kind, id), cfg, k, 0, h);
  }

  lemma FinishIsPatient(s: State, cfg: Config, k: Handle, w: WorkId, h: Handle)
    requires k in s.sessions && w in s.pool.work && 0 < s.sessions[k].tasks.active && h in s.sessions
    ensures var t := Finish(s, cfg, k, w); h in t.sessions && Patient(s.sessions[h], t.sessions[h], cfg)
  {
    hide Settle, Start;
  }

  /** Events that only rewrite records or move work through the budget. */
  predicate Quiet(e: Event) {
    e.AdmissionTimedOut? || e.AdmissionConcluded? || e.StreamEnded? || e.PumpEnded? || e.TaskBegan? || e.CallReturned?
    || e.AdmissionWorkSettled? || e.Observed? || e.Retired?
  }

  lemma QuietSameDrain(s: State, cfg: Config, e: Event, h: Handle)
    requires cfg.Valid() && Enabled(s, cfg, e) && Quiet(e) && h in s.sessions
    ensures SameDrain(s, Step(s, cfg, e), h)
  {
    hide AbandonSession, Enter, Leave, Settle, IP.Release;
  }

  lemma StepIsPatient(s: State, cfg: Config, e: Event, h: Handle)
    requires cfg.Valid() && Enabled(s, cfg, e) && h in s.sessions && e != DrainResumed(h)
    ensures var t := Step(s, cfg, e); h in t.sessions && Patient(s.sessions[h], t.sessions[h], cfg)
  {
    hide Accept, Finish, AbortSignal, MoveServer, ReadDatagram, ResumeDrain, ReadStream, Srv.Enabled, Walks;
    hide Pools.Enter, Leave, Settle, AbandonSession, IP.Release, DrainLoop;
    match e {
      case Offered(k, offer) => AcceptSameDrain(s, cfg, k, offer, h);
      case DatagramRead(k, arrival) =>
        if !s.sessions[h].feed.drain.NotDraining? {
          ReadDatagramSameDrain(s, cfg, k, arrival, h);
        } else {
          ReadDatagramKnows(s, cfg, k, arrival, h);
        }
      case DrainResumed(k) => ResumeDrainSameDrain(s, cfg, k, h);
      case DrainContinued(k) =>
      case StreamRead(k, kind, id, aborted) => ReadStreamSameDrain(s, cfg, k, kind, id, aborted, h);
      case TaskSettled(w) => FinishIsPatient(s, cfg, s.pool.work[w].session, w, h);
      case SignalAborted(k) => AbortClosesAt(s, cfg, k, h);
      case ServerMoved(move, order) => ServerClosesAt(s, cfg, move, order, h);
      case _ => QuietSameDrain(s, cfg, e, h);
    }
  }

  lemma ReadDatagramKnows(s: State, cfg: Config, k: Handle, arrival: Arrival, h: Handle)
    requires k in s.sessions && 1 <= cfg.queueSize && |s.sessions[k].feed.queue| <= cfg.queueSize && h in s.sessions
    ensures h in ReadDatagram(s, cfg, k, arrival).sessions
  {
    hide F.Judge, F.Offered;
  }

  // ----- over a run -----

  /** Whatever happens to a waiting loop in one step of a run, at the end of it the loop waits if and only if
      there is something to wait for, and otherwise it has been woken. */
  lemma WokenExactlyWhenRoom(cfg: Config, states: seq<State>, events: seq<Event>, i: nat, h: Handle)
    requires IsRun(cfg, states, events) && i < |events| && h in states[i].sessions
    requires states[i].sessions[h].feed.drain.AwaitingCapacity?
    ensures h in states[i + 1].sessions
    ensures var m := states[i + 1].sessions[h]; m.feed.drain == F.Suspended(m.Waits(cfg.tasks))
  {
    hide IsRun, Accounted, Enabled, Step, SessionOk;
    RunLength(cfg, states, events);
    RunEnables(cfg, states, events, i);
    NotItself(states[i], cfg, events[i], h);
    StepIsPatient(states[i], cfg, events[i], h);
    EveryRunIsAccounted(cfg, states, events, i + 1);
    SessionIsOk(states[i + 1], cfg, h);
    WaitingHasCause(states[i + 1].sessions[h], cfg);
  }

  lemma NotItself(s: State, cfg: Config, e: Event, h: Handle)
    requires Enabled(s, cfg, e) && h in s.sessions && s.sessions[h].feed.drain.AwaitingCapacity?
    ensures e != DrainResumed(h)
  {
  }

  lemma WaitingHasCause(m: Session, cfg: Config)
    requires SessionOk(m, cfg)
    ensures m.feed.drain.AwaitingCapacity? ==> m.Waits(cfg.tasks)
  {
    hide F.Ok, RetirementOk;
  }

  /** No wake-up is lost: if a loop waits at one moment and at that or a later moment there is nothing to wait
      for, then from there until it moves it can move - even if the room has been taken again meanwhile. */
  lemma {:induction false} NoWakeUpIsLost(cfg: Config, states: seq<State>, events: seq<Event>, i: nat, j: nat, k: nat, h: Handle)
    requires IsRun(cfg, states, events) && i <= j <= k < |states| && h in states[i].sessions && h in states[j].sessions
    requires states[i].sessions[h].feed.drain.AwaitingCapacity?
    requires !states[j].sessions[h].Waits(cfg.tasks)
    requires forall n :: i <= n < k && n < |events| ==> events[n] != DrainResumed(h)
    ensures Enabled(states[k], cfg, DrainResumed(h))
    decreases k
  {
    hide IsRun, Accounted, Step, Session.Waits;
    RunLength(cfg, states, events);
    WaitsOrWoken(cfg, states, events, i, j, h);
    if j < k {
      hide Enabled;
      NoWakeUpIsLost(cfg, states, events, i, j, k - 1, h);
      ResumesIff(states[k - 1], cfg, h);
      RunEnables(cfg, states, events, k - 1);
      StepIsPatient(states[k - 1], cfg, events[k - 1], h);
      ResumesIff(states[k], cfg, h);
    }
  }

  lemma ResumesIff(s: State, cfg: Config, h: Handle)
    ensures Enabled(s, cfg, DrainResumed(h)) <==> h in s.sessions && s.sessions[h].feed.drain.Resuming?
  {
  }

  lemma {:induction false} WaitsOrWoken(cfg: Config, states: seq<State>, events: seq<Event>, i: nat, j: nat, h: Handle)
    requires IsRun(cfg, states, events) && i <= j < |states| && h in states[i].sessions
    requires states[i].sessions[h].feed.drain.AwaitingCapacity?
    requires forall n :: i <= n < j && n < |events| ==> events[n] != DrainResumed(h)
    ensures h in states[j].sessions
    ensures var m := states[j].sessions[h]; m.feed.drain.Resuming? || (m.feed.drain.AwaitingCapacity? && m.Waits(cfg.tasks))
    decreases j
  {
    hide IsRun, Accounted, Step, Enabled, SessionOk, Session.Waits;
    RunLength(cfg, states, events);
    if i < j {
      WaitsOrWoken(cfg, states, events, i, j - 1, h);
      RunEnables(cfg, states, events, j - 1);
      StepIsPatient(states[j - 1], cfg, events[j - 1], h);
    }
    EveryRunIsAccounted(cfg, states, events, j);
    SessionIsOk(states[j], cfg, h);
    WaitingHasCause(states[j].sessions[h], cfg);
  }
}
