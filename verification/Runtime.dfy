/**
  The runtime object (packages/nest-webtransport/src/server/webtransport-runtime.ts): its fields, and
  one method per synchronous segment, each proved against the ledger's function for that segment.

  The handler budget and the address table are the real objects. Managed sessions are records in a map
  that the methods reassign; their schedulers and queues are the values those objects are proved against.
*/
module Runtimes {
  import opened Wrappers
  import opened Pools
  import L = Ledgers
  import B = Budgets
  import F = Feeds
  import HB = HandlerBudgets
  import IP = Slots
  import IT = IpTables
  import Lifecycles
  import Inv = LedgerInvariant
  import Q = Queues
  import Srv = Servers
  import T = Tasks
  import W = Windows
  import Steps = LedgerSteps
  import Ends = LedgerEnds
  import Runs = LedgerRuns
  import Theorems = LedgerTheorems
  import Admission = LedgerAdmission

  class WebTransportRuntime {
    const cfg: L.Config
    const handlerBudget: HB.HandlerBudget<WorkId>
    const ipTable: IT.IpTable
    var server: Srv.Server
    var ids: map<L.SessionId, Handle>
    var outstanding: set<Handle>
    var sessions: map<Handle, L.Session>
    var queuedBytes: int
    var streams: map<L.StreamId, L.Stream>
    var activeStreams: int
    /** Work in flight, and for each piece the release closure it holds. */
    var work: map<WorkId, Work>
    var releases: map<WorkId, HB.Permit>
    var nextWork: WorkId
    var settled: seq<WorkId>

    ghost function Pool(): Pool
      reads this`work, this`nextWork, this`settled, handlerBudget
    {
      Pools.Pool(handlerBudget.State(), work, nextWork, settled)
    }

    ghost function State(): L.State
      reads this, handlerBudget, ipTable
    {
      L.State(server, ids, outstanding, sessions, ipTable.records, Pool(), queuedBytes, streams, activeStreams)
    }

    /** Every piece of work holds its own unreleased permit. */
    ghost predicate Linked()
      reads this`work, this`releases, handlerBudget
    {
      && releases.Keys == work.Keys
      && (forall w :: w in releases ==> releases[w] in handlerBudget.unreleased)
      && (forall v, w :: v in releases && w in releases && v != w ==> releases[v] != releases[w])
    }

    ghost predicate Wired()
      reads this`work, this`releases, handlerBudget
    {
      && cfg.Valid()
      && handlerBudget.limits == cfg.handlers && ipTable.limits == cfg.ip
      && handlerBudget.Valid()
      && Linked()
    }

    ghost predicate Valid()
      reads this, handlerBudget, ipTable
    {
      Wired() && Inv.Accounted(State(), cfg)
    }

    constructor (cfg: L.Config)
      requires cfg.Valid()
      ensures Valid() && State() == L.Initial() && this.cfg == cfg
      ensures fresh(handlerBudget) && fresh(ipTable)
    {
      this.cfg := cfg;
      handlerBudget := new HB.HandlerBudget(cfg.handlers);
      ipTable := new IT.IpTable(cfg.ip);
      server := Srv.Initial();
      ids, outstanding, sessions, queuedBytes := map[], {}, map[], 0;
      streams, activeStreams := map[], 0;
      work, releases, nextWork, settled := map[], map[], 0, [];
      new;
      Theorems.InitialIsAccounted(cfg);
    }

    // ----- work -----

    /** A reservation has been made: the work that holds it. */
    method ChargeWork(permit: HB.Permit, h: Handle, kind: Kind, bytes: nat, phase: Phase) returns (w: WorkId)
      modifies this`work, this`releases, this`nextWork
      ensures w == old(nextWork) && nextWork == w + 1
      ensures work == old(work)[w := Work(h, kind, bytes, phase)]
      ensures releases == old(releases)[w := permit]
    {
      w := nextWork;
      work := work[w := Work(h, kind, bytes, phase)];
      releases := releases[w := permit];
      nextWork := nextWork + 1;
    }

    /** `settle`: calls the work's release closure and forgets it. */
    method SettleWork(w: WorkId)
      requires Wired() && w in work
      modifies this`work, this`releases, this`settled, handlerBudget
      ensures Wired()
      ensures Pool() == Settle(old(Pool()), w)
    {
      handlerBudget.Release(releases[w]);
      releases := releases - {w};
      work := work - {w};
      settled := settled + [w];
    }

    method SetPhase(w: WorkId, phase: Phase)
      modifies this`work
      ensures work == Pools.SetPhase(old(work), w, phase)
    {
      if w in work {
        work := work[w := work[w].(phase := phase)];
      }
    }

    /** The synchronous part of `handlerBudget.run`. */
    method EnterBudget(w: WorkId, aborted: bool)
      requires Wired() && w in work
      modifies this`work, handlerBudget
      ensures Wired()
      ensures Pool() == Enter(old(Pool()), cfg.handlers, w, aborted)
    {
      var entry := handlerBudget.Acquire(w, aborted);
      SetPhase(w, Entered(entry));
    }

    /** The `finally` of `handlerBudget.run`: the calls it grants start running. */
    method LeaveBudget(w: WorkId)
      requires Wired() && 0 < handlerBudget.running
      modifies this`work, handlerBudget
      ensures Wired()
      ensures Pool() == Leave(old(Pool()), cfg.handlers, w)
    {
      B.LeaveGrantsTheOldest(handlerBudget.State(), cfg.handlers);
      ghost var b := handlerBudget.State().(running := handlerBudget.running - 1);
      var granted := handlerBudget.Leave();
      assert granted == B.NewlyGranted(b, cfg.handlers);
      SetPhase(w, Returned);
      GrantAll(granted);
    }

    method GrantAll(granted: seq<WorkId>)
      modifies this`work
      ensures work == Pools.GrantAll(old(work), granted)
    {
      var i := 0;
      while i < |granted|
        invariant 0 <= i <= |granted|
        invariant Pools.GrantAll(work, granted[i..]) == Pools.GrantAll(old(work), granted)
      {
        assert granted[i..][1..] == granted[i + 1..];
        SetPhase(granted[i], Running);
        i := i + 1;
      }
    }

    /** The session's context signal aborts: the abort listener of each of its waiting calls runs. */
    method AbortWaiters(h: Handle)
      requires Wired()
      modifies this`work, handlerBudget
      ensures Wired() && handlerBudget.unreleased == old(handlerBudget.unreleased)
      ensures Pool() == AbandonAll(old(Pool()), cfg.handlers,
                                   WaitersOf(old(handlerBudget.waiters), old(work), h))
    {
      var ws := WaitersOf(handlerBudget.waiters, work, h);
      var i := 0;
      while i < |ws|
        invariant 0 <= i <= |ws|
        invariant Wired() && handlerBudget.unreleased == old(handlerBudget.unreleased)
        invariant AbandonAll(Pool(), cfg.handlers, ws[i..]) == AbandonAll(old(Pool()), cfg.handlers, ws)
      {
        assert ws[i..][1..] == ws[i + 1..];
        AbortOne(ws[i]);
        i := i + 1;
      }
    }

    method AbortOne(w: WorkId)
      requires Wired()
      modifies this`work, handlerBudget
      ensures Wired() && handlerBudget.unreleased == old(handlerBudget.unreleased)
      ensures Pool() == Abandon(old(Pool()), cfg.handlers, w)
    {
      if w in handlerBudget.waiters {
        B.AbandonGrantsNobody(handlerBudget.State(), cfg.handlers, w);
        ghost var before := Pool();
        handlerBudget.AbortWaiter(w);
        SetPhase(w, Returned);
        assert B.NewlyGranted(before.budget.(waiters := B.Remove(before.budget.waiters, w)), cfg.handlers) == [];
      }
    }

    /** A discarding close settles what was queued, one task after the other. */
    method DiscardQueued(pending: seq<WorkId>, ghost h: Handle)
      requires Wired() && B.Distinct(pending) && QueuedFor(work, pending, h)
      modifies this`work, this`releases, this`settled, this`queuedBytes, handlerBudget
      ensures Wired()
      ensures Pool() == SettleAll(old(Pool()), pending)
      ensures queuedBytes == old(queuedBytes) - BytesOf(old(work), pending)
    {
      var i := 0;
      while i < |pending|
        invariant 0 <= i <= |pending|
        invariant Wired()
        invariant QueuedFor(work, pending[i..], h)
        invariant SettleAll(Pool(), pending[i..]) == SettleAll(old(Pool()), pending)
        invariant queuedBytes - BytesOf(work, pending[i..]) == old(queuedBytes) - BytesOf(old(work), pending)
      {
        var w := pending[i];
        assert pending[i..][1..] == pending[i + 1..];
        assert w in pending[i..];
        DiscardOne(w, pending[i + 1..], h);
        i := i + 1;
      }
    }

    method DiscardOne(w: WorkId, ghost rest: seq<WorkId>, ghost h: Handle)
      requires Wired() && w in work && work[w].kind.Task? && QueuedFor(work, rest, h) && w !in rest
      modifies this`work, this`releases, this`settled, this`queuedBytes, handlerBudget
      ensures Wired() && QueuedFor(work, rest, h)
      ensures Pool() == Settle(old(Pool()), w)
      ensures queuedBytes == old(queuedBytes) - ByteWeight(old(work)[w])
      ensures BytesOf(work, rest) == BytesOf(old(work), rest)
    {
      queuedBytes := queuedBytes - work[w].bytes;
      ghost var before := work;
      SettleWork(w);
      BytesOfSame(before, work, rest);
    }

    // ----- ending a session -----

    method ClearDatagrams(h: Handle)
      requires h in sessions
      modifies this`queuedBytes, this`sessions
      ensures queuedBytes == old(queuedBytes) - old(sessions)[h].feed.bytes
      ensures sessions == old(sessions)[h := old(sessions)[h].(feed := F.Cleared(old(sessions)[h].feed))]
    {
      var m := sessions[h];
      queuedBytes := queuedBytes - m.feed.bytes;
      sessions := sessions[h := m.(feed := F.Cleared(m.feed))];
    }

    /** The scheduler's capacity waiters are resumed if there is capacity or will be no more. */
    method FlushWaiters(h: Handle)
      requires h in sessions
      modifies this`sessions
      ensures sessions == old(sessions)[h := old(sessions)[h].Flushed(cfg.tasks)]
    {
      var m := sessions[h];
      if (m.tasks.HasCapacity(cfg.tasks) || !m.tasks.accepting) && m.feed.drain.AwaitingCapacity? {
        sessions := sessions[h := m.(feed := m.feed.(drain := F.Resuming))];
      }
    }

    method StopIntakeOf(h: Handle)
      requires h in sessions
      modifies this`queuedBytes, this`sessions
      ensures State() == L.StopIntake(old(State()), h)
    {
      var m := sessions[h];
      sessions := sessions[h := m.(intakeAborted := true, tasks := m.tasks.(accepting := false))];
      FlushWaiters(h);
      ClearDatagrams(h);
      assert sessions == old(sessions)[h := L.IntakeStopped(m)];
    }

    method StopIntake(h: Handle)
      requires Valid() && h in sessions
      modifies this`queuedBytes, this`sessions
      ensures Valid() && State() == L.StopIntake(old(State()), h)
    {
      hide Inv.Accounted;
      Steps.StopIntakeKeepsAccounts(State(), cfg, h);
      StopIntakeOf(h);
    }

    /** The scheduler takes no more, what it has queued is settled, and its waiters are flushed. */
    method CloseScheduler(h: Handle)
      requires Wired() && h in sessions && QueuedFor(work, sessions[h].tasks.pending, h)
      requires B.Distinct(sessions[h].tasks.pending)
      modifies this`sessions, this`work, this`releases, this`settled, this`queuedBytes, handlerBudget
      ensures Wired()
      ensures Pool() == SettleAll(old(Pool()), old(sessions)[h].tasks.pending)
      ensures queuedBytes == old(queuedBytes) - BytesOf(old(work), old(sessions)[h].tasks.pending)
      ensures var m := old(sessions)[h];
              sessions == old(sessions)[h := m.(feed := F.Woken(m.feed), tasks := T.Core(m.tasks.active, [], false))]
    {
      hide SettleAll, BytesOf, QueuedFor, B.Distinct, Linked;
      var m := sessions[h];
      sessions := sessions[h := m.(tasks := T.Core(m.tasks.active, [], false))];
      DiscardQueued(m.tasks.pending, h);
      FlushWaiters(h);
    }

    /** Aborts the context: its waiting calls leave the global queue. */
    method AbortContext(h: Handle)
      requires Wired() && h in sessions
      modifies this`sessions, this`work, handlerBudget
      ensures Wired()
      ensures State() == L.TimeOutAdmission(old(State()), cfg, h)
    {
      hide AbandonAll, WaitersOf, Linked;
      sessions := sessions[h := sessions[h].(admissionAborted := true)];
      AbortWaiters(h);
    }

    /** Aborts the context and closes the scheduler, discarding what is queued. */
    method ForceOf(h: Handle)
      requires Wired() && h in sessions
      requires QueuedFor(L.AbandonSession(State(), cfg, h).work, sessions[h].tasks.pending, h)
      requires B.Distinct(sessions[h].tasks.pending)
      modifies this`sessions, this`work, this`releases, this`settled, this`queuedBytes, handlerBudget
      ensures Wired()
      ensures State() == L.Force(old(State()), cfg, h)
    {
      hide L.AbandonSession, SettleAll, BytesOf, QueuedFor, B.Distinct, Linked;
      AbortContext(h);
      CloseScheduler(h);
      assert sessions == old(sessions)[h := L.ForcedOut(old(sessions)[h])];
    }

    method Force(h: Handle)
      requires Valid() && h in sessions && sessions[h].intakeAborted && h in outstanding
      modifies this`sessions, this`work, this`releases, this`settled, this`queuedBytes, handlerBudget
      ensures Valid() && State() == L.Force(old(State()), cfg, h)
    {
      hide Inv.Accounted, L.Force, QueuedFor, B.Distinct, L.AbandonSession;
      Ends.ForceKeepsAccounts(State(), cfg, h);
      Ends.AbandonedQueue(State(), cfg, h);
      ForceOf(h);
    }

    method FinalizeOf(h: Handle)
      requires Wired() && h in sessions
      requires QueuedFor(L.AbandonSession(State(), cfg, h).work, sessions[h].tasks.pending, h)
      requires B.Distinct(sessions[h].tasks.pending)
      modifies this`sessions, this`work, this`releases, this`settled, this`queuedBytes, this`ids, handlerBudget
      ensures Wired()
      ensures State() == L.Finalize(old(State()), cfg, h)
    {
      hide L.Finalize, QueuedFor, B.Distinct, L.AbandonSession, L.Session.ContextAborted;
      if sessions[h].finalized {
        Ends.FinalizeTwice(State(), cfg, h);
        return;
      }
      Ends.FinalizeInParts(State(), cfg, h);
      var m := sessions[h];
      StopIntakeOf(h);
      ForceOf(h);
      CloseRecord(h, m.admission, m.pumps);
    }

    method FinalizeSession(h: Handle)
      requires Valid() && h in sessions
      modifies this`sessions, this`work, this`releases, this`settled, this`queuedBytes, this`ids, handlerBudget
      ensures Valid() && State() == L.Finalize(old(State()), cfg, h)
    {
      hide Inv.Accounted, L.Finalize, QueuedFor, B.Distinct, L.AbandonSession;
      Ends.FinalizeKeepsAccounts(State(), cfg, h);
      Ends.AbandonedQueue(State(), cfg, h);
      FinalizeOf(h);
    }

    /** The rest of finalizing: the queue is cleared once more, the session is unregistered and begins
        to retire. */
    method CloseRecord(h: Handle, admission: Option<WorkId>, pumps: set<L.Pump>)
      requires h in sessions
      modifies this`sessions, this`queuedBytes, this`ids
      ensures State() == Ends.RecordClosed(old(State()), h, admission, pumps)
    {
      hide L.Session.ContextAborted, L.Session.Reading, L.Session.Streams, L.Session.AddStreams, Linked, Wired;
      ghost var cleared := sessions[h].(feed := F.Cleared(sessions[h].feed));
      ClearDatagrams(h);
      ids := ids - {sessions[h].id};
      sessions := sessions[h := sessions[h].(
        finalized := true,
        retirement := Some(L.Retirement(admission, pumps, false, false, false)))];
      Ends.PutTwice(old(sessions), h, cleared, sessions[h]);
    }

    /** The admission timer fires first: the admission's context aborts, its promise stays charged. */
    method TimeOutAdmission(h: Handle)
      requires Valid() && h in sessions
      modifies this`sessions, this`work, handlerBudget
      ensures Valid() && State() == L.TimeOutAdmission(old(State()), cfg, h)
    {
      hide Inv.Accounted, L.TimeOutAdmission;
      Steps.TimeOutKeepsAccounts(State(), cfg, h);
      AbortContext(h);
    }

    // ----- streams -----

    method ReleaseStreamOf(k: L.StreamId)
      requires k in streams && streams[k].session in sessions
      modifies this`streams, this`activeStreams, this`sessions
      ensures State() == L.ReleaseStream(old(State()), k)
    {
      var stream := streams[k];
      streams := streams - {k};
      activeStreams := activeStreams - 1;
      sessions := sessions[stream.session := sessions[stream.session].AddStreams(stream.kind, -1)];
    }

    method ReleaseStream(k: L.StreamId)
      requires Valid() && k in streams && streams[k].session in sessions
      modifies this`streams, this`activeStreams, this`sessions
      ensures Valid() && State() == L.ReleaseStream(old(State()), k)
    {
      hide Inv.Accounted;
      Ends.ReleaseKeepsAccounts(State(), cfg, k);
      ReleaseStreamOf(k);
    }

    /** The abort listeners of every stream of the session. */
    method ReleaseStreamsOf(h: Handle)
      requires h in sessions
      modifies this`streams, this`activeStreams, this`sessions
      ensures State() == L.ReleaseAll(old(State()), h)
    {
      hide L.ReleaseAll, L.ReleaseStream;
      var todo := set k | k in streams && streams[k].session == h;
      while todo != {}
        invariant h in sessions && todo == set k | k in streams && streams[k].session == h
        invariant L.ReleaseAll(State(), h) == L.ReleaseAll(old(State()), h)
        decreases todo
      {
        var k :| k in todo;
        Ends.ReleaseOneThenAll(State(), k, h);
        ReleaseStreamOf(k);
        todo := todo - {k};
      }
      assert forall k :: k in streams && streams[k].session == h ==> k in todo;
      Ends.NothingToRelease(State(), h);
    }

    /** The session's own signal aborts. */
    method AbortSignal(h: Handle)
      requires Valid() && h in sessions
      modifies this, handlerBudget
      ensures Valid() && State() == L.AbortSignal(old(State()), cfg, h)
    {
      hide Inv.Accounted, L.Finalize, L.ReleaseAll, QueuedFor, B.Distinct, AbandonAll, WaitersOf;
      Ends.AbortKeepsAccounts(State(), cfg, h);
      Ends.AbandonedQueue(State(), cfg, h);
      Ends.FinalizeKeepsSessions(Ends.Marked(State(), h), cfg, h);
      sessions := sessions[h := sessions[h].(signalAborted := true)];
      FinalizeOf(h);
      ReleaseStreamsOf(h);
    }

    // ----- submitting work -----

    /** A permit that no work holds yet. */
    ghost predicate Holding(permit: HB.Permit, before: Pool)
      reads this, handlerBudget
    {
      && Wired()
      && permit in handlerBudget.unreleased
      && (forall w :: w in releases ==> releases[w] != permit)
      && Pool() == before.(budget := before.budget.(reserved := before.budget.reserved + 1))
    }

    method TryReserve() returns (permit: Option<HB.Permit>)
      requires Wired()
      modifies handlerBudget
      ensures permit.Some? <==> old(Pool()).budget.CanReserve(cfg.handlers)
      ensures permit.None? ==> Wired() && Pool() == old(Pool())
      ensures permit.Some? ==> Holding(permit.value, old(Pool()))
    {
      permit := handlerBudget.Reserve();
    }

    method UseReservation(permit: HB.Permit, h: Handle, kind: Kind, bytes: nat, phase: Phase, ghost before: Pool)
      returns (w: WorkId)
      requires Holding(permit, before)
      modifies this`work, this`releases, this`nextWork
      ensures Wired() && w == before.next && w in work
      ensures Pool() == Charge(before, h, kind, bytes, phase)
    {
      w := ChargeWork(permit, h, kind, bytes, phase);
    }

    /** A reservation whose work is settled without having begun. */
    method ReturnReservation(permit: HB.Permit, h: Handle, kind: Kind, bytes: nat, ghost before: Pool)
      requires Holding(permit, before)
      modifies this`work, this`releases, this`nextWork, this`settled, handlerBudget
      ensures Wired()
      ensures Pool() == Settle(Charge(before, h, kind, bytes, Started), before.next)
    {
      var w := UseReservation(permit, h, kind, bytes, Started, before);
      SettleWork(w);
    }

    /** `submit`: a place in the whole system first, then the session's scheduler. What either refuses
        is settled at once. */
    method SubmitOf(h: Handle, bytes: nat) returns (outcome: T.Outcome)
      requires Wired() && h in sessions
      modifies this`sessions, this`work, this`releases, this`nextWork, this`settled, this`queuedBytes, handlerBudget
      ensures Wired()
      ensures outcome == L.SubmitOutcome(old(State()), cfg, h)
      ensures State() == L.Submit(old(State()), cfg, h, bytes)
    {
      hide Linked, Charge, Settle;
      ghost var before := Pool();
      var permit := TryReserve();
      if permit.None? {
        queuedBytes := queuedBytes - bytes;
        settled := settled + [nextWork];
        nextWork := nextWork + 1;
        return cfg.tasks.Refusal();
      }
      outcome := sessions[h].tasks.Offer(cfg.tasks);
      if outcome.Started? || outcome.Queued? {
        EnrolTask(h, bytes, if outcome.Started? then Started else Queued, permit.value, before);
      } else {
        ReturnReservation(permit.value, h, Task, bytes, before);
        queuedBytes := queuedBytes - bytes;
      }
    }

    method EnrolTask(h: Handle, bytes: nat, phase: Phase, permit: HB.Permit, ghost before: Pool)
      requires Holding(permit, before) && h in sessions
      modifies this`sessions, this`work, this`releases, this`nextWork
      ensures Wired()
      ensures Pool() == Charge(before, h, Task, bytes, phase)
      ensures var m := old(sessions)[h];
              sessions == old(sessions)[h := m.(tasks := m.tasks.Submit(cfg.tasks, before.next))]
    {
      hide Linked, Charge, T.Core.Submit;
      var w := UseReservation(permit, h, Task, bytes, phase, before);
      var m := sessions[h];
      sessions := sessions[h := m.(tasks := m.tasks.Submit(cfg.tasks, w))];
    }

    /** The first microtask of a scheduled task asks the global budget. */
    method TaskBegins(w: WorkId)
      requires Valid() && L.AsksBudget(State(), w)
      modifies this`work, handlerBudget
      ensures Valid() && State() == L.Begin(old(State()), cfg, w)
    {
      hide Inv.Accounted;
      Steps.BeginKeepsAccounts(State(), cfg, w);
      EnterBudget(w, sessions[work[w].session].ContextAborted());
    }

    /** A running call returns or throws: the budget goes to the oldest waiting call. */
    method CallReturns(w: WorkId)
      requires Valid() && w in work && work[w].phase.Running? && 0 < handlerBudget.running
      modifies this`work, handlerBudget
      ensures Valid() && State() == old(State()).(pool := Leave(old(Pool()), cfg.handlers, w))
    {
      hide Inv.Accounted;
      Steps.ReturnKeepsAccounts(State(), cfg, w);
      LeaveBudget(w);
    }

    method StartNext(w: WorkId)
      requires Wired()
      modifies this`work
      ensures Wired() && Pool() == Start(old(Pool()), w)
    {
      SetPhase(w, Started);
    }

    /** The task is settled and the oldest queued one of its session takes its slot. */
    method PassSlotOn(w: WorkId, m: L.Session)
      requires Wired() && w in work
      modifies this`work, this`releases, this`settled, handlerBudget
      ensures Wired() && Pool() == Steps.AfterFinish(old(Pool()), m, w)
    {
      hide Linked, Settle, Start;
      SettleWork(w);
      if m.tasks.pending != [] {
        StartNext(m.tasks.pending[0]);
      }
    }

    /** A scheduled task's promise settles. */
    method FinishTask(w: WorkId)
      requires Valid() && L.HasWork(State(), w, Task, Returned) && 0 < sessions[work[w].session].tasks.active
      modifies this`sessions, this`work, this`releases, this`settled, this`queuedBytes, handlerBudget
      ensures Valid() && State() == L.Finish(old(State()), cfg, old(work)[w].session, w)
    {
      hide Inv.Accounted, Linked, L.Session.Flushed, L.Finish, Steps.AfterFinish;
      var h := work[w].session;
      Steps.FinishKeepsAccounts(State(), cfg, h, w);
      Steps.FinishIsPutAndPool(State(), cfg, h, w);
      var m := sessions[h];
      sessions := sessions[h := m.(tasks := m.tasks.Finish())];
      queuedBytes := queuedBytes - work[w].bytes;
      PassSlotOn(w, m);
      FlushWaiters(h);
      assert sessions == old(sessions)[h := L.Freed(m, cfg)];
    }

    /** The admission promise settles, however long after its session is gone. */
    method SettleAdmission(w: WorkId)
      requires Valid() && L.HasWork(State(), w, Admission, Returned)
      modifies this`sessions, this`work, this`releases, this`settled, handlerBudget
      ensures Valid() && State() == L.SettleAdmission(old(State()), old(work)[w].session, w)
    {
      hide Inv.Accounted;
      var h := work[w].session;
      Steps.SettleAdmissionKeepsAccounts(State(), cfg, h, w);
      SettleWork(w);
      sessions := sessions[h := sessions[h].(admission := None)];
    }

    // ----- pumps -----

    /** After a successful admission the pumps start, unless intake has been stopped meanwhile. */
    method Conclude(h: Handle, pumps: set<L.Pump>)
      requires Valid() && h in sessions && L.DrainPump !in pumps
      modifies this`sessions
      ensures Valid() && State() == L.Conclude(old(State()), h, pumps)
    {
      hide Inv.Accounted;
      Steps.ConcludeKeepsAccounts(State(), cfg, h, pumps);
      var m := sessions[h].(admitted := true);
      if !m.signalAborted && !m.intakeAborted && server.state == Lifecycles.Running {
        m := m.(pumps := m.pumps + pumps);
      }
      sessions := sessions[h := m];
    }

    method EndPump(h: Handle, pump: L.Pump)
      requires Valid() && h in sessions && pump != L.DrainPump
      modifies this`sessions
      ensures Valid() && State() == L.EndPump(old(State()), h, pump)
    {
      hide Inv.Accounted;
      Steps.PumpEndKeepsAccounts(State(), cfg, h, pump);
      sessions := sessions[h := sessions[h].(pumps := sessions[h].pumps - {pump})];
    }

    method DropDatagram(h: Handle)
      requires h in sessions
      modifies this`sessions
      ensures sessions == old(sessions)[h := old(sessions)[h].(feed := F.Dropped(old(sessions)[h].feed))]
    {
      var m := sessions[h];
      sessions := sessions[h := m.(feed := m.feed.(read := m.feed.read + 1, dropped := m.feed.dropped + 1))];
    }

    /** Whether the session may take one more datagram in its current second. */
    method ConsumeDatagramRate(h: Handle, now: real) returns (ok: bool)
      requires h in sessions
      modifies this`sessions
      ensures var (meter, taken) := W.TakeDatagram(old(sessions)[h].meter, cfg.DatagramRate(), now);
              ok == taken && sessions == old(sessions)[h := old(sessions)[h].(meter := meter)]
    {
      var m := sessions[h];
      var meter := m.meter;
      if now - meter.startedAt >= 1000.0 {
        meter := W.Meter(now, 0);
      }
      ok := meter.used < cfg.maxDatagramsPerSecond;
      if ok {
        meter := meter.(used := meter.used + 1);
      }
      sessions := sessions[h := m.(meter := meter)];
    }

    /** One value read by the datagram pump. */
    method ReadDatagram(h: Handle, arrival: L.Arrival)
      requires Valid() && h in sessions && |sessions[h].feed.queue| <= cfg.queueSize
      modifies this`sessions, this`queuedBytes
      ensures Valid() && State() == L.ReadDatagram(old(State()), cfg, h, arrival)
    {
      hide Inv.Accounted, W.TakeDatagram, L.Receive;
      Steps.ReadDatagramKeepsAccounts(State(), cfg, h, arrival);
      var m := sessions[h];
      if m.intakeAborted || m.signalAborted {
        sessions := sessions[h := m.(pumps := m.pumps - {L.DatagramPump})];
        return;
      }
      var inRate := false;
      if arrival.size <= cfg.maxDatagramSize && arrival.size <= arrival.transportMax {
        inRate := ConsumeDatagramRate(h, arrival.now);
      } else {
        assert sessions == sessions[h := m];
      }
      Receive(h, arrival, inRate);
    }

    method Receive(h: Handle, arrival: L.Arrival, inRate: bool)
      requires cfg.Valid() && h in sessions && |sessions[h].feed.queue| <= cfg.queueSize
      modifies this`sessions, this`queuedBytes
      ensures State() == L.Receive(old(State()), cfg, h, arrival, inRate)
    {
      if !arrival.Fits(cfg) || !inRate {
        DropDatagram(h);
        return;
      }
      var m := sessions[h];
      var full := |m.feed.queue| == cfg.queueSize;
      var replaced := if full && cfg.queueOverflow == Q.DropOldest && m.feed.queue != [] then m.feed.queue[0].size else 0;
      if queuedBytes - replaced + arrival.size > cfg.maxQueuedBytes {
        DropDatagram(h);
        return;
      }
      EnqueueDatagram(h, arrival.size);
    }

    /** Where a drain loop of the session is suspended when it asks its scheduler for capacity. */
    function WhenCapacityAvailable(m: L.Session): (drain: F.Drain)
      ensures drain == F.Suspended(m.Waits(cfg.tasks))
    {
      if m.tasks.HasCapacity(cfg.tasks) || !m.tasks.accepting || m.signalAborted then F.Resuming else F.AwaitingCapacity
    }

    /** The queue says what it did with the datagram; both byte counters follow. */
    method EnqueueDatagram(h: Handle, size: nat)
      requires cfg.Valid() && h in sessions && |sessions[h].feed.queue| <= cfg.queueSize
      modifies this`sessions, this`queuedBytes
      ensures queuedBytes == old(queuedBytes) + F.OfferedBytes(old(sessions)[h].feed, cfg.queueSize, cfg.queueOverflow, size)
      ensures var m := old(sessions)[h]; var feed := F.Offered(m.feed, cfg.queueSize, cfg.queueOverflow, size, m.Waits(cfg.tasks));
              sessions == old(sessions)[h := m.(feed := feed,
                                                pumps := if feed.drain.NotDraining? then m.pumps else m.pumps + {L.DrainPump})]
    {
      var m := sessions[h];
      var (queue, result) := Q.Enqueue(m.feed.queue, cfg.queueSize, cfg.queueOverflow, F.Datagram(m.feed.read, size));
      var feed := m.feed.(queue := queue, read := m.feed.read + 1);
      if result.Accepted() {
        queuedBytes := queuedBytes + size;
        feed := feed.(bytes := feed.bytes + size);
      }
      if result.DroppedOldest? {
        queuedBytes := queuedBytes - result.dropped.size;
        feed := feed.(bytes := feed.bytes - result.dropped.size);
      }
      if !result.Enqueued? {
        feed := feed.(dropped := feed.dropped + 1);
      }
      if feed.drain.NotDraining? && queue != [] && !result.ClosesSession? {
        feed := feed.(drain := WhenCapacityAvailable(m));
      }
      sessions := sessions[h := m.(feed := feed,
                                   pumps := if feed.drain.NotDraining? then m.pumps else m.pumps + {L.DrainPump})];
    }

    /** The drain loop after `whenCapacityAvailable`. */
    method ResumeDrain(h: Handle)
      requires Valid() && h in sessions && sessions[h].feed.drain.Resuming?
      modifies this`sessions, this`work, this`releases, this`nextWork, this`settled, this`queuedBytes, handlerBudget
      ensures Valid() && State() == L.ResumeDrain(old(State()), cfg, h)
    {
      hide Inv.Accounted, L.Submit, L.SubmitOutcome;
      Steps.ResumeDrainKeepsAccounts(State(), cfg, h);
      var m := sessions[h];
      if !m.tasks.HasCapacity(cfg.tasks) {
        if !m.tasks.accepting || !m.Reading() {
          sessions := sessions[h := L.EndDrain(m)];
        } else {
          ContinueDrainOf(h);
        }
      } else if m.feed.queue == [] {
        sessions := sessions[h := L.EndDrain(m)];
      } else {
        sessions := sessions[h := m.(feed := F.Taken(m.feed))];
        var outcome := SubmitOf(h, m.feed.queue[0].size);
      }
    }

    method ContinueDrainOf(h: Handle)
      requires h in sessions
      modifies this`sessions
      ensures State() == L.ContinueDrain(old(State()), cfg, h)
    {
      var m := sessions[h];
      if m.feed.queue != [] && !m.signalAborted && !m.intakeAborted {
        sessions := sessions[h := m.(feed := m.feed.(drain := WhenCapacityAvailable(m)))];
      } else {
        sessions := sessions[h := L.EndDrain(m)];
      }
    }

    /** The drain loop after the outcome of a submission has been handled. */
    method ContinueDrain(h: Handle)
      requires Valid() && h in sessions && !sessions[h].feed.drain.NotDraining?
      modifies this`sessions
      ensures Valid() && State() == L.ContinueDrain(old(State()), cfg, h)
    {
      hide Inv.Accounted;
      Steps.ContinueDrainKeepsAccounts(State(), cfg, h);
      ContinueDrainOf(h);
    }

    method TrackStream(h: Handle, kind: L.StreamKind, k: L.StreamId)
      requires h in sessions
      modifies this`sessions, this`streams, this`activeStreams
      ensures State() == L.Track(old(State()), h, kind, k)
    {
      activeStreams := activeStreams + 1;
      sessions := sessions[h := sessions[h].AddStreams(kind, 1)];
      streams := streams[k := L.Stream(h, kind)];
    }

    /** One stream read by a stream pump; `aborted` when its own signal already has. */
    method ReadStream(h: Handle, kind: L.StreamKind, k: L.StreamId, aborted: bool)
      requires Valid() && h in sessions && k !in streams
      modifies this, handlerBudget
      ensures Valid() && State() == L.ReadStream(old(State()), cfg, h, kind, k, aborted)
    {
      hide Inv.Accounted, L.Submit, L.SubmitOutcome, L.Track;
      Ends.ReadStreamKeepsAccounts(State(), cfg, h, kind, k, aborted);
      Ends.TrackKeepsSession(State(), h, kind, k);
      var m := sessions[h];
      if m.intakeAborted || m.signalAborted {
        sessions := sessions[h := m.(pumps := m.pumps - {L.StreamPump(kind)})];
        return;
      }
      if activeStreams >= cfg.maxStreams || m.Streams(kind) >= cfg.MaxStreams(kind) {
        return;
      }
      if !aborted {
        TrackStream(h, kind, k);
      }
      var outcome := SubmitOf(h, 0);
    }

    // ----- retiring -----

    method Observe(h: Handle, what: L.Observation)
      requires Valid() && h in sessions && L.CanObserve(State(), h, what)
      modifies this`sessions
      ensures Valid() && State() == L.Put(old(State()), h, L.Observe(old(sessions)[h], what))
    {
      hide Inv.Accounted;
      Steps.ObserveKeepsAccounts(State(), cfg, h, what);
      sessions := sessions[h := L.Observe(sessions[h], what)];
    }

    /** Everything `retireSession` waits for has been seen: the session gives its slots back, once. */
    method RetireSession(h: Handle, now: int)
      requires Valid() && h in sessions && L.CanRetire(sessions[h])
      modifies this`outstanding, ipTable
      ensures Valid() && State() == L.Retire(old(State()), h, now)
    {
      hide Inv.Accounted, IP.Release;
      Ends.RetireKeepsAccounts(State(), cfg, h, now);
      if h in outstanding {
        outstanding := outstanding - {h};
        ipTable.Release(sessions[h].ip, now);
      }
    }

    // ----- admission -----

    /** The first segment of `acceptSession`: every check in order, each refusal giving back what the
        earlier ones took. `o` holds what the code asks of its environment. */
    method AcceptSession(h: Handle, o: L.Offer) returns (verdict: L.Verdict)
      requires Valid() && h !in sessions
      modifies this, handlerBudget, ipTable
      ensures Admission.FirstFailure(old(State()), cfg, o, verdict)
      ensures verdict == L.Judge(old(State()), cfg, o)
      ensures State() == L.Accept(old(State()), cfg, h, o)
      ensures Valid()
    {
      hide Inv.Accounted, Linked, IP.Acquire, IP.Release, Charge, Settle, L.Admit, Admission.FirstFailure;
      Runs.AcceptKeepsAccounts(State(), cfg, h, o);
      Admission.TheAnswerIsTheFirstFailure(State(), cfg, o);
      if server.state != Lifecycles.Running || !o.driverRunning {
        return L.ServerUnavailable;
      }
      if !o.routed {
        return L.NoRoute;
      }
      if |outstanding| >= cfg.maxSessions {
        return L.GlobalLimit;
      }
      if o.id in ids {
        return L.DuplicateId;
      }
      if !o.headersAllowed {
        return L.HeadersRejected;
      }
      var free := ipTable.Acquire(o.ip, o.clock);
      if !free {
        return L.IpLimit;
      }
      ghost var before := Pool();
      var permit := TryReserve();
      if permit.None? {
        ipTable.Release(o.ip, o.freedAt);
        return L.HandlerLimit;
      }
      if !o.readersReserved {
        ReturnReservation(permit.value, h, Admission, 0, before);
        ipTable.Release(o.ip, o.freedAt);
        return L.ReaderSetup;
      }
      Register(h, o, permit.value, before);
      return L.Admitted;
    }

    /** The session gets its record; its admission begins unless its signal has aborted already. */
    method Register(h: Handle, o: L.Offer, permit: HB.Permit, ghost before: Pool)
      requires Holding(permit, before)
      modifies this, handlerBudget
      ensures Wired()
      ensures State() == L.Admit(old(State()).(pool := before), cfg, h, o)
    {
      hide Linked, Charge, Settle, Enter, L.Finalize, L.AbandonSession;
      ids := ids[o.id := h];
      outstanding := outstanding + {h};
      sessions := sessions[h := L.NewSession(o)];
      if o.aborted {
        ReturnReservation(permit, h, Admission, 0, before);
        FinalizeOf(h);
      } else {
        BeginAdmission(h, permit, before);
        assert sessions == old(sessions)[h := L.NewSession(o).(admission := Some(before.next))];
      }
    }

    /** The admission's work starts, charged until its promise settles. */
    method BeginAdmission(h: Handle, permit: HB.Permit, ghost before: Pool)
      requires Holding(permit, before) && h in sessions
      modifies this`sessions, this`work, this`releases, this`nextWork, handlerBudget
      ensures Wired()
      ensures Pool() == Enter(Charge(before, h, Admission, 0, Started), cfg.handlers, before.next, false)
      ensures sessions == old(sessions)[h := old(sessions)[h].(admission := Some(before.next))]
    {
      hide Linked, Charge, Enter;
      var w := UseReservation(permit, h, Admission, 0, Started, before);
      EnterBudget(w, false);
      sessions := sessions[h := sessions[h].(admission := Some(w))];
    }

    // ----- the server as a whole -----

    method StopIntakeAll(order: seq<Handle>)
      modifies this`sessions, this`queuedBytes
      ensures State() == L.StopIntakeAll(old(State()), order)
    {
      hide L.StopIntake;
      var i := 0;
      while i < |order|
        invariant 0 <= i <= |order|
        invariant L.StopIntakeAll(State(), order[i..]) == L.StopIntakeAll(old(State()), order)
      {
        assert order[i..][1..] == order[i + 1..];
        if order[i] in sessions {
          StopIntakeOf(order[i]);
        }
        i := i + 1;
      }
    }

    method ForceAll(order: seq<Handle>)
      requires Valid()
      requires forall h :: h in order ==> Ends.Forceable(State(), h)
      modifies this`sessions, this`work, this`releases, this`settled, this`queuedBytes, handlerBudget
      ensures Valid() && State() == L.ForceAll(old(State()), cfg, order)
    {
      hide Inv.Accounted, L.Force, Ends.Forceable;
      var i := 0;
      while i < |order|
        invariant 0 <= i <= |order|
        invariant Valid() && forall h :: h in order ==> Ends.Forceable(State(), h)
        invariant L.ForceAll(State(), cfg, order[i..]) == L.ForceAll(old(State()), cfg, order)
      {
        assert order[i..][1..] == order[i + 1..] && order[i] in order;
        Ends.ForceableStays(State(), cfg, order[i], order);
        Force(order[i]);
        i := i + 1;
      }
    }

    method FinalizeAll(order: seq<Handle>)
      requires Valid()
      modifies this`sessions, this`work, this`releases, this`settled, this`queuedBytes, this`ids, handlerBudget
      ensures Valid() && State() == L.FinalizeAll(old(State()), cfg, order)
    {
      hide Inv.Accounted, L.Finalize;
      var i := 0;
      while i < |order|
        invariant 0 <= i <= |order|
        invariant Valid()
        invariant L.FinalizeAll(State(), cfg, order[i..]) == L.FinalizeAll(old(State()), cfg, order)
      {
        assert order[i..][1..] == order[i + 1..];
        if order[i] in sessions {
          FinalizeSession(order[i]);
        }
        i := i + 1;
      }
    }

    /** The first segment of `stop`; `order` is the order in which the outstanding set is walked. */
    method Stop(graceful: bool, order: seq<Handle>)
      requires Valid() && forall h :: h in order <==> h in outstanding
      modifies this, handlerBudget
      ensures Valid() && State() == L.MoveServer(old(State()), cfg, Srv.StopCalled(graceful), order)
    {
      hide Inv.Accounted, L.StopIntakeAll, L.ForceAll, Srv.DoStopCalled, Ends.Forceable;
      ghost var e := Srv.StopCalled(graceful);
      Runs.MoveServerKeepsAccounts(State(), cfg, e, order);
      var next := Srv.DoStopCalled(server, graceful);
      if Srv.Stops(server) {
        Ends.StopMakesForceable(State(), cfg, order);
        StopIntakeAll(order);
        if next.stop != Some(Srv.DrainingHandlers) {
          ForceAll(order);
        }
      }
      server := next;
    }

    /** The graceful drain has ended or timed out. */
    method EndDraining(order: seq<Handle>)
      requires Valid() && server.stop == Some(Srv.DrainingHandlers) && forall h :: h in order <==> h in outstanding
      modifies this, handlerBudget
      ensures Valid() && State() == L.MoveServer(old(State()), cfg, Srv.DrainEnded, order)
    {
      hide Inv.Accounted, L.ForceAll, Srv.DoForce, Ends.Forceable;
      Runs.MoveServerKeepsAccounts(State(), cfg, Srv.DrainEnded, order);
      Runs.DrainingIsForceable(State(), cfg);
      ForceAll(order);
      server := Srv.DoForce(server, false);
    }

    /** The driver's stop settles or times out: every session still registered is finalized. */
    method DriverStopped(ok: bool, order: seq<Handle>)
      requires Valid() && server.stop == Some(Srv.StoppingDriver) && forall h :: h in order <==> h in ids.Values
      modifies this, handlerBudget
      ensures Valid() && State() == L.MoveServer(old(State()), cfg, Srv.DriverStopped(ok), order)
    {
      hide Inv.Accounted, L.FinalizeAll, Srv.DoDriverStopped;
      Runs.MoveServerKeepsAccounts(State(), cfg, Srv.DriverStopped(ok), order);
      FinalizeAll(order);
      server := Srv.DoDriverStopped(server, ok);
    }
  }
}
