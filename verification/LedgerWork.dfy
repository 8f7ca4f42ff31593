/**
  Which work is taken (packages/nest-webtransport/src/server/webtransport-runtime.ts:1304-1336 over
  handler-budget.ts:19-63 and bounded-task-scheduler.ts:60-87): exactly what there is room for, and once
  taken it is never refused for want of room.
*/
module LedgerWork {
  import opened Pools
  import opened Ledgers
  import opened LedgerInvariant
  import opened LedgerSteps
  import opened LedgerTheorems
  import opened LedgerProgress
  import opened LedgerAdmission
  import B = Budgets
  import T = Tasks

  /** Room for one more task of the session: a place in the whole server and one in its own open scheduler. */
  ghost predicate RoomForTask(s: State, cfg: Config, h: Handle)
    requires h in s.sessions
  {
    var tasks := s.sessions[h].tasks;
    && |s.pool.work| < cfg.handlers.concurrency + cfg.handlers.pending
    && tasks.accepting && tasks.active + |tasks.pending| < cfg.tasks.maxConcurrent + cfg.tasks.maxPending
  }

  /** The task is charged, and has a slot of its scheduler or its last place in the queue. */
  ghost predicate Taken(s: State, cfg: Config, h: Handle, bytes: nat, t: State)
    requires h in s.sessions
  {
    var m, free := s.sessions[h], s.sessions[h].tasks.active < cfg.tasks.maxConcurrent;
    && t.pool.work == s.pool.work[s.pool.next := Work(h, Task, bytes, if free then Started else Queued)]
    && t.sessions == s.sessions[h := m.(tasks := if free then m.tasks.(active := m.tasks.active + 1)
                                                 else m.tasks.(pending := m.tasks.pending + [s.pool.next]))]
    && t.queuedBytes == s.queuedBytes
  }

  /** Nothing is kept of it: its bytes are given back and it counts as settled. */
  ghost predicate GivenBack(s: State, bytes: nat, t: State) {
    && t.pool.work == s.pool.work && t.pool.budget == s.pool.budget && t.sessions == s.sessions
    && t.pool.next == s.pool.next + 1 && t.pool.settled == s.pool.settled + [s.pool.next]
    && t.queuedBytes == s.queuedBytes - bytes
  }

  /** The answer to a submission, and what it tells the caller to do with what it submitted. */
  ghost predicate Answers(s: State, cfg: Config, h: Handle, answer: T.Outcome)
    requires h in s.sessions
  {
    var tasks := s.sessions[h].tasks;
    var reserved := |s.pool.work| < cfg.handlers.concurrency + cfg.handlers.pending;
    && (answer.Taken() <==> RoomForTask(s, cfg, h))
    && (answer.Started? <==> RoomForTask(s, cfg, h) && tasks.active < cfg.tasks.maxConcurrent)
    && (answer.Closed? <==> reserved && !tasks.accepting)
    && (answer.Dropped? ==> cfg.tasks.overflow.Drop?)
    && (answer.Rejected? ==> cfg.tasks.overflow.Reject?)
    && (answer.ClosesSession? ==> cfg.tasks.overflow.CloseSession?)
  }

  lemma SubmitAnswers(s: State, cfg: Config, h: Handle)
    requires Accounted(s, cfg) && h in s.sessions
    ensures Answers(s, cfg, h, SubmitOutcome(s, cfg, h))
  {
    hide Accounted, B.Budget.CanReserve;
    CanReserveIff(s, cfg);
    AdmissionIsWork(s, cfg, h);
    T.AnswersExactly(s.sessions[h].tasks, cfg.tasks);
    hide T.Core.Offer;
  }

  lemma SubmitTakes(s: State, cfg: Config, h: Handle, bytes: nat)
    requires Accounted(s, cfg) && h in s.sessions
    ensures RoomForTask(s, cfg, h) ==> Taken(s, cfg, h, bytes, Submit(s, cfg, h, bytes))
    ensures !RoomForTask(s, cfg, h) ==> GivenBack(s, bytes, Submit(s, cfg, h, bytes))
  {
    hide Accounted, Submit, RoomForTask, Taken, GivenBack;
    PoolIsOk(s, cfg);
    AdmissionIsWork(s, cfg, h);
    SubmitTakesIn(s, cfg, h, bytes);
  }

  lemma SubmitTakesIn(s: State, cfg: Config, h: Handle, bytes: nat)
    requires Pools.Inv(s.pool, cfg.handlers) && h in s.sessions && s.sessions[h].tasks.Bounded(cfg.tasks)
    ensures RoomForTask(s, cfg, h) ==> Taken(s, cfg, h, bytes, Submit(s, cfg, h, bytes))
    ensures !RoomForTask(s, cfg, h) ==> GivenBack(s, bytes, Submit(s, cfg, h, bytes))
  {
    T.AnswersExactly(s.sessions[h].tasks, cfg.tasks);
    BouncedTaskIsSame(s.pool, cfg.handlers, h, bytes);
  }

  lemma BouncedTaskIsSame(p: Pool, limits: B.Limits, h: Handle, bytes: nat)
    requires Pools.Inv(p, limits)
    ensures var q := Settle(Charge(p, h, Task, bytes, Started), p.next);
            q.work == p.work && q.budget == p.budget && q.next == p.next + 1 && q.settled == p.settled + [p.next]
  {
    assert p.next !in p.work;
    assert p.work[p.next := Work(h, Task, bytes, Started)] - {p.next} == p.work;
  }

  /** In every reachable state a submission is taken - started or queued - if and only if fewer pieces of
      work are charged than the server has places, and the session's scheduler accepts and has a place;
      it is then charged and in its place, and otherwise nothing of it is kept. */
  lemma SubmissionIsTakenExactly(cfg: Config, states: seq<State>, events: seq<Event>, k: nat, h: Handle, bytes: nat)
    requires IsRun(cfg, states, events) && k < |states| && h in states[k].sessions
    ensures var s := states[k]; var t := Submit(s, cfg, h, bytes);
            && Answers(s, cfg, h, SubmitOutcome(s, cfg, h))
            && if RoomForTask(s, cfg, h) then Taken(s, cfg, h, bytes, t) else GivenBack(s, bytes, t)
  {
    hide IsRun, Accounted, Submit, SubmitOutcome, Answers, RoomForTask, Taken, GivenBack;
    EveryRunIsAccounted(cfg, states, events, k);
    SubmitAnswers(states[k], cfg, h);
    SubmitTakes(states[k], cfg, h, bytes);
  }

  // ----- asking to run -----

  /** In every run, when a started task asks to run: with its context live it runs if fewer calls run than
      may, and waits otherwise - it is never refused, because it holds its place; with its context aborted
      it returns without having run. Nobody else moves. */
  lemma BeginsExactly(cfg: Config, states: seq<State>, events: seq<Event>, i: nat)
    requires IsRun(cfg, states, events) && i < |events| && events[i].TaskBegan?
    ensures var s, w := states[i], events[i].w;
            && w in s.pool.work && s.pool.work[w].session in s.sessions
            && var phase := if s.sessions[s.pool.work[w].session].ContextAborted() then Returned
                            else if s.pool.budget.running < cfg.handlers.concurrency then Phase.Running
                            else Waiting;
               && states[i + 1].pool.work == s.pool.work[w := s.pool.work[w].(phase := phase)]
               && states[i + 1].pool.budget.waiters == s.pool.budget.waiters + (if phase.Waiting? then [w] else [])
               && states[i + 1].pool.budget.running == s.pool.budget.running + (if phase.Running? then 1 else 0)
  {
    hide IsRun, Accounted;
    RunLength(cfg, states, events);
    RunEnables(cfg, states, events, i);
    EveryRunIsAccounted(cfg, states, events, i);
    PoolIsOk(states[i], cfg);
    hide NoAbortedWaiters, SettledOnce;
  }
}
