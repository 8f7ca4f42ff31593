/**
  The per-session handler scheduler (packages/nest-webtransport/src/execution/bounded-task-scheduler.ts).

  `Tasks` is the specification: one value per state, one function per synchronous segment, and
  what every run of those segments keeps. `TaskSchedulers` is the object, proved against it.

  A task is any value: its promise settling is the event `Finish`. Handing control to `onSettled`
  is the history variable `settled`; the callback is assumed not to call back into the scheduler.
*/
module Tasks {
  import opened Wrappers

  datatype Overflow = Drop | Reject | CloseSession

  datatype Outcome = Started | Queued | Dropped | Rejected | ClosesSession | Closed {
    predicate Taken() {
      Started? || Queued?
    }
  }

  datatype Limits = Limits(maxConcurrent: nat, maxPending: nat, overflow: Overflow) {
    predicate Valid() {
      1 <= maxConcurrent
    }

    function Refusal(): Outcome {
      match overflow
      case Drop => Dropped
      case Reject => Rejected
      case CloseSession => ClosesSession
    }
  }

  /** The counters every decision depends on. */
  datatype Core<T> = Core(active: nat, pending: seq<T>, accepting: bool) {
    predicate Bounded(limits: Limits) {
      && active <= limits.maxConcurrent
      && |pending| <= limits.maxPending
      && (pending != [] ==> active == limits.maxConcurrent)
    }

    predicate HasCapacity(limits: Limits) {
      accepting && active + |pending| < limits.maxConcurrent + limits.maxPending
    }

    predicate Idle() {
      active == 0 && pending == []
    }

    function Offer(limits: Limits): Outcome {
      if !accepting then Closed
      else if active < limits.maxConcurrent then Started
      else if |pending| < limits.maxPending then Queued
      else limits.Refusal()
    }

    function Submit(limits: Limits, task: T): Core<T> {
      match Offer(limits)
      case Started => this.(active := active + 1)
      case Queued => this.(pending := pending + [task])
      case _ => this
    }

    /** A running task settles; the oldest pending task, if any, takes its place. */
    function Finish(): Core<T>
      requires 0 < active
    {
      if pending == [] then this.(active := active - 1) else this.(pending := pending[1..])
    }
  }

  /** Whenever capacity was announced, a submission is taken: only the global budget can refuse it. */
  lemma CapacityIsTaken<T>(c: Core<T>, limits: Limits)
    requires c.Bounded(limits)
    ensures c.HasCapacity(limits) <==> c.Offer(limits).Taken()
  {
  }

  /** Which answer a submission gets: it starts while there is a slot, is queued while every slot is taken
      and the queue has room, and otherwise gets what the policy says, or hears that the scheduler closed. */
  lemma AnswersExactly<T>(c: Core<T>, limits: Limits)
    requires c.Bounded(limits)
    ensures var answer := c.Offer(limits); var full := c.active + |c.pending| == limits.maxConcurrent + limits.maxPending;
            && (answer.Closed? <==> !c.accepting)
            && (answer.Started? <==> c.accepting && c.active < limits.maxConcurrent)
            && (answer.Queued? <==> c.accepting && c.active == limits.maxConcurrent && !full)
            && (answer.Dropped? <==> c.accepting && full && limits.overflow.Drop?)
            && (answer.Rejected? <==> c.accepting && full && limits.overflow.Reject?)
            && (answer.ClosesSession? <==> c.accepting && full && limits.overflow.CloseSession?)
  {
  }

  // ----- the whole object, with its history -----

  type Waiter = nat

  datatype Scheduler<T> = Scheduler(
    core: Core<T>,
    capacityWaiters: set<Waiter>,
    idleWaiters: set<Waiter>,
    resumed: set<Waiter>,
    running: multiset<T>,
    accepted: seq<T>,
    started: seq<T>,
    discarded: seq<T>,
    settled: seq<T>)

  function Initial<T>(): Scheduler<T> {
    Scheduler(Core(0, [], true), {}, {}, {}, multiset{}, [], [], [], [])
  }

  function Flush<T>(s: Scheduler<T>, limits: Limits): Scheduler<T> {
    var toCapacity := s.core.HasCapacity(limits) || !s.core.accepting;
    var toIdle := s.core.Idle();
    s.(capacityWaiters := if toCapacity then {} else s.capacityWaiters,
       idleWaiters := if toIdle then {} else s.idleWaiters,
       resumed := s.resumed + (if toCapacity then s.capacityWaiters else {}) + (if toIdle then s.idleWaiters else {}))
  }

  function Submit<T>(s: Scheduler<T>, limits: Limits, task: T): Scheduler<T> {
    var outcome := s.core.Offer(limits);
    s.(core := s.core.Submit(limits, task),
       running := if outcome.Started? then s.running + multiset{task} else s.running,
       accepted := if outcome.Taken() then s.accepted + [task] else s.accepted,
       started := if outcome.Started? then s.started + [task] else s.started)
  }

  function Finish<T>(s: Scheduler<T>, limits: Limits, task: T): Scheduler<T>
    requires task in s.running && 0 < s.core.active
  {
    Flush(WithNextStarted(s, task), limits)
  }

  /** A finish before the waiters are told. */
  function WithNextStarted<T>(s: Scheduler<T>, task: T): Scheduler<T>
    requires task in s.running && 0 < s.core.active
  {
    StartNext(s.(core := s.core.(active := s.core.active - 1),
                 running := s.running - multiset{task},
                 settled := s.settled + [task]))
  }

  function StartNext<T>(s: Scheduler<T>): Scheduler<T> {
    var next := s.core.pending;
    if next == [] then s
    else
      s.(core := Core(s.core.active + 1, next[1..], s.core.accepting),
         running := s.running + multiset{next[0]},
         started := s.started + [next[0]])
  }

  function Close<T>(s: Scheduler<T>, limits: Limits, discardPending: bool): Scheduler<T> {
    var gone := if discardPending then s.core.pending else [];
    Flush(s.(core := Core(s.core.active, if discardPending then [] else s.core.pending, false),
             discarded := s.discarded + gone,
             settled := s.settled + gone),
          limits)
  }

  function AwaitCapacity<T>(s: Scheduler<T>, limits: Limits, w: Waiter, aborted: bool): Scheduler<T> {
    if s.core.HasCapacity(limits) || !s.core.accepting || aborted
    then s.(resumed := s.resumed + {w})
    else s.(capacityWaiters := s.capacityWaiters + {w})
  }

  function AwaitIdle<T>(s: Scheduler<T>, w: Waiter, aborted: bool): Scheduler<T> {
    if s.core.Idle() || aborted
    then s.(resumed := s.resumed + {w})
    else s.(idleWaiters := s.idleWaiters + {w})
  }

  function AbortWaiter<T>(s: Scheduler<T>, w: Waiter): Scheduler<T> {
    if w in s.capacityWaiters || w in s.idleWaiters
    then s.(capacityWaiters := s.capacityWaiters - {w},
            idleWaiters := s.idleWaiters - {w},
            resumed := s.resumed + {w})
    else s
  }

  /** Start order is acceptance order, and only a close ever discards. */
  ghost predicate Ordered<T>(s: Scheduler<T>) {
    && s.accepted == s.started + s.core.pending + s.discarded
    && (s.discarded != [] ==> !s.core.accepting && s.core.pending == [])
  }

  /** Every accepted task is in exactly one place, as often as it was accepted. */
  ghost predicate Conserved<T>(s: Scheduler<T>) {
    && |s.running| == s.core.active
    && multiset(s.accepted) == s.running + multiset(s.core.pending) + multiset(s.settled)
  }

  /** Nobody waits for something that is already there. */
  ghost predicate NoneStranded<T>(s: Scheduler<T>, limits: Limits) {
    && (s.capacityWaiters != {} ==> s.core.accepting && !s.core.HasCapacity(limits))
    && (s.idleWaiters != {} ==> !s.core.Idle())
    && s.resumed !! s.capacityWaiters && s.resumed !! s.idleWaiters && s.capacityWaiters !! s.idleWaiters
  }

  /** What holds between any two segments. */
  ghost predicate Inv<T>(s: Scheduler<T>, limits: Limits) {
    s.core.Bounded(limits) && Ordered(s) && Conserved(s) && NoneStranded(s, limits)
  }

  datatype Event<T> =
    | Submitted(task: T)
    | Finished(task: T)
    | ClosedBy(discardPending: bool)
    | CapacityAwaited(w: Waiter, aborted: bool)
    | IdleAwaited(w: Waiter, aborted: bool)
    | WaiterAborted(w: Waiter)

  predicate Enabled<T(==)>(s: Scheduler<T>, e: Event<T>) {
    match e
    case Finished(task) => task in s.running && 0 < s.core.active
    case CapacityAwaited(w, _) => w !in s.capacityWaiters + s.idleWaiters + s.resumed
    case IdleAwaited(w, _) => w !in s.capacityWaiters + s.idleWaiters + s.resumed
    case _ => true
  }

  function Step<T>(s: Scheduler<T>, limits: Limits, e: Event<T>): Scheduler<T>
    requires Enabled(s, e)
  {
    match e
    case Submitted(task) => Submit(s, limits, task)
    case Finished(task) => Finish(s, limits, task)
    case ClosedBy(discard) => Close(s, limits, discard)
    case CapacityAwaited(w, aborted) => AwaitCapacity(s, limits, w, aborted)
    case IdleAwaited(w, aborted) => AwaitIdle(s, w, aborted)
    case WaiterAborted(w) => AbortWaiter(s, w)
  }

  lemma StepKeepsInv<T>(s: Scheduler<T>, limits: Limits, e: Event<T>)
    requires limits.Valid() && Inv(s, limits) && Enabled(s, e)
    ensures Inv(Step(s, limits, e), limits)
  {
    match e {
      case Submitted(task) => SubmitKeepsInv(s, limits, task);
      case Finished(task) => FinishKeepsInv(s, limits, task);
      case ClosedBy(discard) => CloseKeepsInv(s, limits, discard);
      case CapacityAwaited(w, aborted) => AwaitsKeepInv(s, limits, w, aborted);
      case IdleAwaited(w, aborted) => AwaitsKeepInv(s, limits, w, aborted);
      case WaiterAborted(w) => AbortKeepsInv(s, limits, w);
    }
  }

  lemma SubmitKeepsInv<T>(s: Scheduler<T>, limits: Limits, task: T)
    requires Inv(s, limits)
    ensures Inv(Submit(s, limits, task), limits)
  {
    SubmitKeepsOrder(s, limits, task);
    SubmitKeepsTasks(s, limits, task);
  }

  lemma SubmitKeepsOrder<T>(s: Scheduler<T>, limits: Limits, task: T)
    requires s.core.Bounded(limits) && Ordered(s)
    ensures Ordered(Submit(s, limits, task))
  {
    var s' := Submit(s, limits, task);
    match s.core.Offer(limits) {
      case Started =>
        assert s.discarded == [] && s.core.pending == [];
        assert s'.accepted == s'.started + s'.core.pending + s'.discarded;
      case Queued =>
        assert s.discarded == [];
        assert s'.accepted == s'.started + s'.core.pending + s'.discarded;
      case _ =>
    }
  }

  lemma SubmitKeepsTasks<T>(s: Scheduler<T>, limits: Limits, task: T)
    requires Conserved(s)
    ensures Conserved(Submit(s, limits, task))
  {
    var s' := Submit(s, limits, task);
    match s.core.Offer(limits) {
      case Started => assert multiset(s'.accepted) == multiset(s.accepted) + multiset{task};
      case Queued => assert multiset(s'.accepted) == multiset(s.accepted) + multiset{task};
      case _ =>
    }
  }

  lemma RunningIsActive<T>(s: Scheduler<T>, limits: Limits, task: T)
    requires Inv(s, limits) && task in s.running
    ensures 0 < s.core.active
  {
  }

  lemma FinishKeepsInv<T>(s: Scheduler<T>, limits: Limits, task: T)
    requires limits.Valid() && Inv(s, limits) && task in s.running
    ensures Inv(Finish(s, limits, task), limits)
  {
    FinishKeepsOrder(s, limits, task);
    FinishKeepsTasks(s, limits, task);
  }

  lemma FinishKeepsOrder<T>(s: Scheduler<T>, limits: Limits, task: T)
    requires Ordered(s) && task in s.running && 0 < s.core.active
    ensures Ordered(Finish(s, limits, task))
  {
    var s' := Finish(s, limits, task);
    if s.core.pending != [] {
      assert s.core.pending == [s.core.pending[0]] + s.core.pending[1..];
      assert s'.accepted == s'.started + s'.core.pending + s'.discarded;
    }
  }

  lemma FinishKeepsTasks<T>(s: Scheduler<T>, limits: Limits, task: T)
    requires Conserved(s) && task in s.running && 0 < s.core.active
    ensures Conserved(Finish(s, limits, task))
  {
    var s' := Finish(s, limits, task);
    assert multiset(s'.settled) == multiset(s.settled) + multiset{task};
    if s.core.pending != [] {
      assert s.core.pending == [s.core.pending[0]] + s.core.pending[1..];
      assert multiset(s.core.pending) == multiset{s.core.pending[0]} + multiset(s'.core.pending);
    }
  }

  lemma CloseKeepsInv<T>(s: Scheduler<T>, limits: Limits, discardPending: bool)
    requires Inv(s, limits)
    ensures Inv(Close(s, limits, discardPending), limits)
  {
    CloseKeepsOrder(s, limits, discardPending);
    CloseKeepsTasks(s, limits, discardPending);
  }

  lemma CloseKeepsOrder<T>(s: Scheduler<T>, limits: Limits, discardPending: bool)
    requires Ordered(s)
    ensures Ordered(Close(s, limits, discardPending))
  {
    var s' := Close(s, limits, discardPending);
    assert s'.accepted == s'.started + s'.core.pending + s'.discarded;
  }

  lemma CloseKeepsTasks<T>(s: Scheduler<T>, limits: Limits, discardPending: bool)
    requires Conserved(s)
    ensures Conserved(Close(s, limits, discardPending))
  {
    var s' := Close(s, limits, discardPending);
    if discardPending {
      assert multiset(s'.settled) == multiset(s.settled) + multiset(s.core.pending);
      assert multiset(s'.core.pending) == multiset{};
    } else {
      assert s'.settled == s.settled;
    }
  }

  lemma AwaitsKeepInv<T>(s: Scheduler<T>, limits: Limits, w: Waiter, aborted: bool)
    requires Inv(s, limits) && w !in s.capacityWaiters + s.idleWaiters + s.resumed
    ensures Inv(AwaitCapacity(s, limits, w, aborted), limits)
    ensures Inv(AwaitIdle(s, w, aborted), limits)
  {
    AwaitsStrandNone(s, limits, w, aborted);
  }

  lemma AwaitsStrandNone<T>(s: Scheduler<T>, limits: Limits, w: Waiter, aborted: bool)
    requires NoneStranded(s, limits) && w !in s.capacityWaiters + s.idleWaiters + s.resumed
    ensures NoneStranded(AwaitCapacity(s, limits, w, aborted), limits)
    ensures NoneStranded(AwaitIdle(s, w, aborted), limits)
  {
  }

  lemma AbortKeepsInv<T>(s: Scheduler<T>, limits: Limits, w: Waiter)
    requires Inv(s, limits)
    ensures Inv(AbortWaiter(s, w), limits)
  {
  }

  predicate Awaits<T(==)>(e: Event<T>, w: Waiter) {
    (e.CapacityAwaited? || e.IdleAwaited?) && e.w == w
  }

  /** Who waits, and who has been resumed, after a step: for capacity, exactly who waited or began to, and
      was not aborted, if the scheduler is open and full; for idleness likewise, if it is busy; and whoever
      does not wait any more has been resumed, and nobody else. */
  ghost predicate WaitsRight<T>(s: Scheduler<T>, t: Scheduler<T>, limits: Limits, e: Event<T>) {
    var full := t.core.accepting && t.core.active + |t.core.pending| == limits.maxConcurrent + limits.maxPending;
    var busy := 0 < t.core.active + |t.core.pending|;
    && (forall w :: w in t.capacityWaiters <==>
          full && e != WaiterAborted(w) && (w in s.capacityWaiters || e == CapacityAwaited(w, false)))
    && (forall w :: w in t.idleWaiters <==>
          busy && e != WaiterAborted(w) && (w in s.idleWaiters || e == IdleAwaited(w, false)))
    && (forall w :: w in t.resumed <==>
          || w in s.resumed
          || ((w in s.capacityWaiters || w in s.idleWaiters || Awaits(e, w))
              && w !in t.capacityWaiters && w !in t.idleWaiters))
  }

  lemma FlushWaitsRight<T>(s: Scheduler<T>, u: Scheduler<T>, limits: Limits, e: Event<T>)
    requires u.core.Bounded(limits) && (e.Finished? || e.ClosedBy?)
    requires u.capacityWaiters == s.capacityWaiters && u.idleWaiters == s.idleWaiters && u.resumed == s.resumed
    requires s.capacityWaiters !! s.idleWaiters
    ensures WaitsRight(s, Flush(u, limits), limits, e)
  {
  }

  lemma OthersWaitRight<T>(s: Scheduler<T>, limits: Limits, e: Event<T>)
    requires limits.Valid() && s.core.Bounded(limits) && NoneStranded(s, limits) && Enabled(s, e)
    requires !e.Finished? && !e.ClosedBy?
    ensures WaitsRight(s, Step(s, limits, e), limits, e)
  {
  }

  /** In every state that a run reaches, every step resumes exactly whoever has nothing to wait for any more. */
  lemma WaitersWaitExactly<T>(s: Scheduler<T>, limits: Limits, e: Event<T>)
    requires limits.Valid() && Inv(s, limits) && Enabled(s, e)
    ensures WaitsRight(s, Step(s, limits, e), limits, e)
  {
    hide Ordered, Conserved, WaitsRight, Flush;
    match e {
      case Finished(task) => FlushWaitsRight(s, WithNextStarted(s, task), limits, e);
      case ClosedBy(discard) =>
        var gone := if discard then s.core.pending else [];
        FlushWaitsRight(s, s.(core := Core(s.core.active, if discard then [] else s.core.pending, false),
                              discarded := s.discarded + gone, settled := s.settled + gone), limits, e);
      case _ => OthersWaitRight(s, limits, e);
    }
  }

  /** What a close does: it stops accepting, for good; with discarding, the queue is discarded and settled in
      its order; without, everything accepted is left to run. What runs is not touched. */
  lemma ClosesExactly<T>(s: Scheduler<T>, limits: Limits, discardPending: bool)
    ensures var t := Close(s, limits, discardPending);
            && !t.core.accepting && t.core.active == s.core.active && t.running == s.running && t.started == s.started
            && t.core.pending == (if discardPending then [] else s.core.pending)
            && t.discarded == s.discarded + (if discardPending then s.core.pending else [])
            && t.settled == s.settled + (if discardPending then s.core.pending else [])
            && t.capacityWaiters == {}
  {
  }

  // ----- runs -----

  ghost predicate IsRun<T>(limits: Limits, states: seq<Scheduler<T>>, events: seq<Event<T>>) {
    && |states| == |events| + 1
    && states[0] == Initial()
    && forall i :: 0 <= i < |events| ==>
         Enabled(states[i], events[i]) && states[i + 1] == Step(states[i], limits, events[i])
  }

  /** In every state of every run: start order is acceptance order, the two bounds hold, no accepted
      task is lost or settled twice, a refused task is never settled, and no waiter is stranded. */
  lemma {:induction false} EveryRunIsOrderedAndBounded<T>(
      limits: Limits, states: seq<Scheduler<T>>, events: seq<Event<T>>, k: nat)
    requires limits.Valid() && IsRun(limits, states, events) && k < |states|
    ensures Inv(states[k], limits)
  {
    if k != 0 {
      EveryRunIsOrderedAndBounded(limits, states, events, k - 1);
      assert states[k - 1 + 1] == Step(states[k - 1], limits, events[k - 1]);
      StepKeepsInv(states[k - 1], limits, events[k - 1]);
    }
  }

  /** In an idle state nothing is owed: what was accepted is what was settled, task for task. */
  lemma IdleMeansAllSettled<T>(s: Scheduler<T>, limits: Limits)
    requires Inv(s, limits) && s.core.Idle()
    ensures multiset(s.accepted) == multiset(s.settled)
    ensures s.idleWaiters == {}
  {
    assert s.running == multiset{};
  }

  // ----- draining after a close -----

  function FinishAll<T>(s: Scheduler<T>, limits: Limits, order: seq<T>): (r: Option<Scheduler<T>>)
    decreases |order|
  {
    if order == [] then Some(s)
    else if order[0] in s.running && 0 < s.core.active then
      FinishAll(Finish(s, limits, order[0]), limits, order[1..])
    else None
  }

  function Remaining<T>(s: Scheduler<T>): nat {
    s.core.active + |s.core.pending|
  }

  /** Closed without discarding, every finish lowers what remains by exactly one, whichever task
      finishes; some task can finish while anything remains; and after exactly `Remaining` finishes
      the scheduler is idle and every idle waiter has been resumed. */
  lemma {:induction false} ClosedSchedulerDrains<T>(s: Scheduler<T>, limits: Limits, order: seq<T>)
    requires limits.Valid() && Inv(s, limits) && !s.core.accepting
    requires FinishAll(s, limits, order).Some?
    ensures var r := FinishAll(s, limits, order).value;
            && Inv(r, limits)
            && !r.core.accepting
            && Remaining(r) == Remaining(s) - |order|
            && (0 < Remaining(r) <==> r.running != multiset{})
            && (Remaining(r) == 0 && 0 < |order| ==> r.idleWaiters == {} && s.idleWaiters <= r.resumed)
    decreases |order|
  {
    if order == [] {
      assert 0 < s.core.active <==> s.running != multiset{};
    } else {
      var next := Finish(s, limits, order[0]);
      FinishKeepsInv(s, limits, order[0]);
      ClosedSchedulerDrains(next, limits, order[1..]);
      var r := FinishAll(s, limits, order).value;
      assert FinishAll(next, limits, order[1..]).value == r;
      if |order| == 1 {
        assert r == next;
      } else {
        assert s.idleWaiters <= next.idleWaiters + next.resumed;
        ResumedGrows(next, limits, order[1..]);
      }
    }
  }

  lemma {:induction false} ResumedGrows<T>(s: Scheduler<T>, limits: Limits, order: seq<T>)
    requires FinishAll(s, limits, order).Some?
    ensures s.resumed <= FinishAll(s, limits, order).value.resumed
    decreases |order|
  {
    if order != [] {
      ResumedGrows(Finish(s, limits, order[0]), limits, order[1..]);
    }
  }
}

module TaskSchedulers {
  import S = Tasks

  class BoundedTaskScheduler<T> {
    const limits: S.Limits
    var pending: seq<T>
    var idleWaiters: set<S.Waiter>
    var capacityWaiters: set<S.Waiter>
    var activeCount: nat
    var accepting: bool
    /** Promises resolved so far. */
    var resumed: set<S.Waiter>

    ghost var running: multiset<T>
    ghost var accepted: seq<T>
    ghost var started: seq<T>
    ghost var discarded: seq<T>
    ghost var settled: seq<T>

    ghost function State(): S.Scheduler<T>
      reads this
    {
      S.Scheduler(S.Core(activeCount, pending, accepting), capacityWaiters, idleWaiters, resumed,
                  running, accepted, started, discarded, settled)
    }

    ghost predicate Valid()
      reads this
    {
      limits.Valid() && S.Inv(State(), limits)
    }

    constructor (limits: S.Limits)
      requires limits.Valid()
      ensures Valid() && this.limits == limits && State() == S.Initial()
    {
      this.limits := limits;
      pending, idleWaiters, capacityWaiters := [], {}, {};
      activeCount, accepting, resumed := 0, true, {};
      running, accepted, started, discarded, settled := multiset{}, [], [], [], [];
    }

    predicate HasCapacity()
      reads this
    {
      accepting && activeCount + |pending| < limits.maxConcurrent + limits.maxPending
    }

    predicate IsIdle()
      reads this
    {
      activeCount == 0 && |pending| == 0
    }

    method Submit(task: T) returns (outcome: S.Outcome)
      requires Valid()
      modifies this
      ensures Valid()
      ensures outcome == old(State()).core.Offer(limits)
      ensures State() == S.Submit(old(State()), limits, task)
    {
      hide S.Inv;
      S.SubmitKeepsInv(State(), limits, task);
      if !accepting {
        return S.Closed;
      }
      if activeCount < limits.maxConcurrent {
        accepted := accepted + [task];
        Start(task);
        return S.Started;
      }
      if |pending| < limits.maxPending {
        accepted := accepted + [task];
        pending := pending + [task];
        return S.Queued;
      }
      match limits.overflow {
        case Drop => return S.Dropped;
        case Reject => return S.Rejected;
        case CloseSession => return S.ClosesSession;
      }
    }

    method Start(task: T)
      modifies this`activeCount, this`running, this`started
      ensures activeCount == old(activeCount) + 1
      ensures running == old(running) + multiset{task}
      ensures started == old(started) + [task]
    {
      activeCount := activeCount + 1;
      running := running + multiset{task};
      started := started + [task];
    }

    /** The task's promise has settled. */
    method Finish(task: T)
      requires Valid() && task in running
      modifies this
      ensures Valid()
      ensures State() == S.Finish(old(State()), limits, task)
    {
      hide S.Inv;
      S.RunningIsActive(State(), limits, task);
      S.FinishKeepsInv(State(), limits, task);
      Release(task);
    }

    method Release(task: T)
      requires task in running && 0 < activeCount
      modifies this
      ensures State() == S.Finish(old(State()), limits, task)
    {
      ghost var before := State();
      activeCount := activeCount - 1;
      running := running - multiset{task};
      settled := settled + [task];
      assert State() == before.(core := before.core.(active := before.core.active - 1),
                                running := before.running - multiset{task},
                                settled := before.settled + [task]);
      StartNext();
      assert State() == S.WithNextStarted(before, task);
      FlushWaiters();
    }

    method StartNext()
      modifies this`activeCount, this`running, this`started, this`pending
      ensures State() == S.StartNext(old(State()))
    {
      if pending != [] {
        var next := pending[0];
        pending := pending[1..];
        Start(next);
      }
    }

    method Settle(task: T)
      modifies this`settled
      ensures settled == old(settled) + [task]
    {
      settled := settled + [task];
    }

    method Close(discardPending: bool)
      requires Valid()
      modifies this
      ensures Valid()
      ensures State() == S.Close(old(State()), limits, discardPending)
    {
      hide S.Inv;
      S.CloseKeepsInv(State(), limits, discardPending);
      accepting := false;
      if discardPending {
        var removed := pending;
        pending := [];
        for i := 0 to |removed|
          invariant settled == old(settled) + removed[..i]
          invariant removed == old(pending) && pending == [] && !accepting
          invariant unchanged(`activeCount) && unchanged(`capacityWaiters) && unchanged(`idleWaiters)
          invariant unchanged(`resumed) && unchanged(`running) && unchanged(`accepted)
          invariant unchanged(`started) && unchanged(`discarded)
        {
          Settle(removed[i]);
        }
        discarded := discarded + removed;
      }
      assert [] + discarded == discarded && discarded + [] == discarded && settled + [] == settled;
      FlushWaiters();
      assert State() == S.Close(old(State()), limits, discardPending);
    }

    method FlushWaiters()
      modifies this`capacityWaiters, this`idleWaiters, this`resumed
      ensures State() == S.Flush(old(State()), limits)
    {
      if HasCapacity() || !accepting {
        while capacityWaiters != {}
          invariant capacityWaiters <= old(capacityWaiters)
          invariant capacityWaiters + resumed == old(capacityWaiters + resumed)
          invariant idleWaiters == old(idleWaiters)
          decreases capacityWaiters
        {
          var w :| w in capacityWaiters;
          capacityWaiters := capacityWaiters - {w};
          resumed := resumed + {w};
        }
      }
      ghost var mid, kept := resumed, capacityWaiters;
      if IsIdle() {
        while idleWaiters != {}
          invariant idleWaiters <= old(idleWaiters)
          invariant idleWaiters + resumed == old(idleWaiters) + mid
          invariant capacityWaiters == kept
          decreases idleWaiters
        {
          var w :| w in idleWaiters;
          idleWaiters := idleWaiters - {w};
          resumed := resumed + {w};
        }
      }
    }

    method WhenCapacityAvailable(w: S.Waiter, aborted: bool)
      requires Valid() && w !in capacityWaiters + idleWaiters + resumed
      modifies this
      ensures Valid()
      ensures State() == S.AwaitCapacity(old(State()), limits, w, aborted)
    {
      if HasCapacity() || !accepting || aborted {
        resumed := resumed + {w};
        return;
      }
      capacityWaiters := capacityWaiters + {w};
    }

    method OnIdle(w: S.Waiter, aborted: bool)
      requires Valid() && w !in capacityWaiters + idleWaiters + resumed
      modifies this
      ensures Valid()
      ensures State() == S.AwaitIdle(old(State()), w, aborted)
    {
      if IsIdle() || aborted {
        resumed := resumed + {w};
        return;
      }
      idleWaiters := idleWaiters + {w};
    }

    /** The signal given to one of the two waits fires. */
    method AbortWaiter(w: S.Waiter)
      requires Valid()
      modifies this
      ensures Valid()
      ensures State() == S.AbortWaiter(old(State()), w)
    {
      if w in capacityWaiters || w in idleWaiters {
        capacityWaiters := capacityWaiters - {w};
        idleWaiters := idleWaiters - {w};
        resumed := resumed + {w};
      }
    }
  }
}
