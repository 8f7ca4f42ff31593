/**
  The pool of charged work: every call that holds a place in the server-wide handler budget,
  together with the budget itself (packages/nest-webtransport/src/server/webtransport-runtime.ts:539-548,
  1304-1336 over handler-budget.ts and bounded-task-scheduler.ts).

  A piece of work is one `submit` or one session admission. It holds a reservation and, for a
  datagram, a byte charge from the moment it is charged until it is settled.
*/
module Pools {
  import opened Sums
  import B = Budgets

  type Handle = nat
  type WorkId = nat

  datatype Kind = Admission | Task

  /**
    Queued: in its session's scheduler queue. Started: its scheduler slot is taken, the budget not
    yet asked. Waiting, Running: in the budget. Returned: out of the budget, not yet settled.
  */
  datatype Phase = Queued | Started | Waiting | Running | Returned

  datatype Work = Work(session: Handle, kind: Kind, bytes: nat, phase: Phase)

  datatype Pool = Pool(
    budget: B.Budget<WorkId>,
    work: map<WorkId, Work>,
    next: WorkId,
    settled: seq<WorkId>)

  function Empty(): Pool {
    Pool(B.Budget(0, 0, []), map[], 0, [])
  }

  function RunningWeight(w: Work): nat { if w.phase.Running? then 1 else 0 }

  function WaitingWeight(w: Work): nat { if w.phase.Waiting? then 1 else 0 }

  /** Only scheduled tasks carry a byte charge. */
  function ByteWeight(w: Work): nat { if w.kind.Task? then w.bytes else 0 }

  /** Weight one for work that occupies a slot of this session's scheduler. */
  ghost function ActiveIn(h: Handle): Work -> nat {
    (w: Work) => if w.kind.Task? && w.session == h && !w.phase.Queued? then 1 else 0
  }

  // ----- the moves -----

  /** Takes a reservation for new work. */
  function Charge(p: Pool, h: Handle, kind: Kind, bytes: nat, phase: Phase): Pool {
    p.(budget := p.budget.(reserved := p.budget.reserved + 1),
       work := p.work[p.next := Work(h, kind, bytes, phase)],
       next := p.next + 1)
  }

  /** The budget is full: the work is settled without ever being charged. */
  function Refuse(p: Pool): Pool {
    p.(next := p.next + 1, settled := p.settled + [p.next])
  }

  function SetPhase(work: map<WorkId, Work>, w: WorkId, phase: Phase): map<WorkId, Work> {
    if w in work then work[w := work[w].(phase := phase)] else work
  }

  function GrantAll(work: map<WorkId, Work>, granted: seq<WorkId>): map<WorkId, Work> {
    if granted == [] then work else GrantAll(SetPhase(work, granted[0], Running), granted[1..])
  }

  function Entered(entry: B.Entry): Phase {
    match entry
    case Granted => Running
    case Waits => Waiting
    case Refused => Returned
  }

  /** The task's first microtask: it asks the budget to run. */
  function Enter(p: Pool, limits: B.Limits, w: WorkId, aborted: bool): Pool {
    p.(budget := p.budget.Enter(limits, w, aborted),
       work := SetPhase(p.work, w, Entered(p.budget.Entering(limits, aborted))))
  }

  /** The running call settles and wakes the oldest waiters. */
  function Leave(p: Pool, limits: B.Limits, w: WorkId): Pool
    requires 0 < p.budget.running
  {
    var b := p.budget.(running := p.budget.running - 1);
    p.(budget := b.Wake(limits),
       work := GrantAll(SetPhase(p.work, w, Returned), B.NewlyGranted(b, limits)))
  }

  /** The context signal of a waiting call aborts. */
  function Abandon(p: Pool, limits: B.Limits, w: WorkId): Pool {
    if w !in p.budget.waiters then p
    else
      var b := p.budget.(waiters := B.Remove(p.budget.waiters, w));
      p.(budget := b.Wake(limits),
         work := GrantAll(SetPhase(p.work, w, Returned), B.NewlyGranted(b, limits)))
  }

  function AbandonAll(p: Pool, limits: B.Limits, ws: seq<WorkId>): Pool
    decreases |ws|
  {
    if ws == [] then p else AbandonAll(Abandon(p, limits, ws[0]), limits, ws[1..])
  }

  /** The waiting calls of one session, oldest first. */
  function WaitersOf(waiters: seq<WorkId>, work: map<WorkId, Work>, h: Handle): (r: seq<WorkId>)
    ensures forall w :: w in r <==> w in waiters && w in work && work[w].session == h
  {
    if waiters == [] then []
    else
      var n := |waiters| - 1;
      var rest := WaitersOf(waiters[..n], work, h);
      assert waiters == waiters[..n] + [waiters[n]];
      if waiters[n] in work && work[waiters[n]].session == h then rest + [waiters[n]] else rest
  }

  function Start(p: Pool, w: WorkId): Pool {
    p.(work := SetPhase(p.work, w, Started))
  }

  /** `settle`: gives the reservation back, once. */
  function Settle(p: Pool, w: WorkId): Pool {
    if w in p.work && 0 < p.budget.reserved then
      p.(budget := p.budget.(reserved := p.budget.reserved - 1),
         work := p.work - {w},
         settled := p.settled + [w])
    else p
  }

  /** A discarding close settles what was queued, oldest first. */
  function SettleAll(p: Pool, ws: seq<WorkId>): Pool
    decreases |ws|
  {
    if ws == [] then p else SettleAll(Settle(p, ws[0]), ws[1..])
  }

  function BytesOf(work: map<WorkId, Work>, ws: seq<WorkId>): nat {
    if ws == [] then 0 else (if ws[0] in work then ByteWeight(work[ws[0]]) else 0) + BytesOf(work, ws[1..])
  }

  // ----- what every move keeps -----

  /** The budget's counters are exactly the work there is, and its queue exactly the waiting work. */
  ghost predicate Counted(b: B.Budget<WorkId>, work: map<WorkId, Work>, limits: B.Limits) {
    && b.Bounded(limits)
    && b.reserved == |work| <= limits.concurrency + limits.pending
    && b.running == Sum(work, RunningWeight)
    && |b.waiters| == Sum(work, WaitingWeight)
    && B.Distinct(b.waiters)
    && forall w :: w in b.waiters <==> w in work && work[w].phase.Waiting?
  }

  /** Every id handed out is either charged now or was settled, and settled once. */
  ghost predicate SettledOnce(p: Pool) {
    && B.Distinct(p.settled)
    && (forall w :: w in p.settled ==> w < p.next && w !in p.work)
    && (forall w :: w in p.work ==> w < p.next)
    && (forall w :: 0 <= w < p.next ==> w in p.work || w in p.settled)
  }

  ghost predicate Inv(p: Pool, limits: B.Limits) {
    Counted(p.budget, p.work, limits) && SettledOnce(p)
  }

  /** Same work, same sessions, kinds and bytes; only phases inside a scheduler slot may differ. */
  ghost predicate SameCharges(a: map<WorkId, Work>, b: map<WorkId, Work>) {
    && a.Keys == b.Keys
    && forall w :: w in a ==>
         && a[w].session == b[w].session && a[w].kind == b[w].kind && a[w].bytes == b[w].bytes
         && (a[w].phase.Queued? <==> b[w].phase.Queued?)
  }

  lemma ChargeKeepsInv(p: Pool, limits: B.Limits, h: Handle, kind: Kind, bytes: nat, phase: Phase)
    requires Inv(p, limits) && p.budget.CanReserve(limits)
    requires phase.Queued? || phase.Started?
    ensures Inv(Charge(p, h, kind, bytes, phase), limits)
  {
    ChargeKeepsCounted(p, limits, Work(h, kind, bytes, phase));
    ChargeKeepsSettled(p, h, kind, bytes, phase);
    hide Counted, SettledOnce;
  }

  lemma ChargeKeepsCounted(p: Pool, limits: B.Limits, work: Work)
    requires Inv(p, limits) && p.budget.CanReserve(limits)
    requires work.phase.Queued? || work.phase.Started?
    ensures Counted(p.budget.(reserved := p.budget.reserved + 1), p.work[p.next := work], limits)
  {
    assert p.next !in p.work;
    SumPut(p.work, RunningWeight, p.next, work);
    SumPut(p.work, WaitingWeight, p.next, work);
    assert |p.work[p.next := work]| == |p.work| + 1;
  }

  lemma ChargeKeepsSettled(p: Pool, h: Handle, kind: Kind, bytes: nat, phase: Phase)
    requires SettledOnce(p)
    ensures SettledOnce(Charge(p, h, kind, bytes, phase))
  {
  }

  lemma RefuseKeepsInv(p: Pool, limits: B.Limits)
    requires Inv(p, limits)
    ensures Inv(Refuse(p), limits)
  {
    var p' := Refuse(p);
    B.AppendKeepsDistinct(p.settled, p.next);
    assert p.next in p'.settled && forall w :: w in p.settled ==> w in p'.settled;
  }

  lemma PhaseChange(work: map<WorkId, Work>, w: WorkId, phase: Phase)
    requires w in work
    ensures var work' := SetPhase(work, w, phase); var new' := work[w].(phase := phase);
            && Sum(work', RunningWeight) == Sum(work, RunningWeight) - RunningWeight(work[w]) + RunningWeight(new')
            && Sum(work', WaitingWeight) == Sum(work, WaitingWeight) - WaitingWeight(work[w]) + WaitingWeight(new')
            && RunningWeight(work[w]) <= Sum(work, RunningWeight)
            && work'.Keys == work.Keys && |work'| == |work|
  {
    SumPut(work, RunningWeight, w, work[w].(phase := phase));
    SumPut(work, WaitingWeight, w, work[w].(phase := phase));
    assert SetPhase(work, w, phase).Keys == work.Keys;
  }

  lemma EnterKeepsInv(p: Pool, limits: B.Limits, w: WorkId, aborted: bool)
    requires Inv(p, limits) && w in p.work && p.work[w].phase.Started?
    ensures Inv(Enter(p, limits, w, aborted), limits)
    ensures SameCharges(p.work, Enter(p, limits, w, aborted).work)
  {
    var phase := Entered(p.budget.Entering(limits, aborted));
    PhaseChange(p.work, w, phase);
    assert w !in p.budget.waiters;
  }

  /** Of all waiting calls, exactly the oldest is granted by a departure. */
  lemma LeaveGrantsHead(p: Pool, limits: B.Limits, w: WorkId)
    requires Counted(p.budget, p.work, limits) && w in p.work && p.work[w].phase.Running?
    ensures 0 < p.budget.running
    ensures var returned := SetPhase(p.work, w, Returned); var waiters := p.budget.waiters;
            && Leave(p, limits, w).budget == p.budget.Leave(limits)
            && Leave(p, limits, w).work ==
               if waiters == [] then returned else SetPhase(returned, waiters[0], Running)
  {
    SumWitness(p.work, RunningWeight, w);
    B.LeaveGrantsTheOldest(p.budget, limits);
    var b := p.budget.(running := p.budget.running - 1);
    var granted := B.NewlyGranted(b, limits);
    var returned := SetPhase(p.work, w, Returned);
    if p.budget.waiters == [] {
      assert granted == [];
    } else {
      assert granted == [p.budget.waiters[0]];
      assert granted[1..] == [];
      assert GrantAll(returned, granted) == GrantAll(SetPhase(returned, granted[0], Running), []);
    }
  }

  lemma LeaveKeepsInv(p: Pool, limits: B.Limits, w: WorkId)
    requires Inv(p, limits) && w in p.work && p.work[w].phase.Running?
    ensures 0 < p.budget.running
    ensures Inv(Leave(p, limits, w), limits)
    ensures SameCharges(p.work, Leave(p, limits, w).work)
  {
    hide Leave, B.Budget.Leave, SettledOnce, SameCharges;
    LeaveGrantsHead(p, limits, w);
    B.LeaveGrantsTheOldest(p.budget, limits);
    var returned := SetPhase(p.work, w, Returned);
    PhaseKeepsCharges(p.work, w, Returned);
    if p.budget.waiters == [] {
      LeavesAlone(p.budget, p.work, limits, w);
    } else {
      HandsOver(p.budget, p.work, limits, w);
      PhaseKeepsCharges(returned, p.budget.waiters[0], Running);
      SameChargesTrans(p.work, returned, Leave(p, limits, w).work);
    }
    SameChargesKeys(p.work, Leave(p, limits, w).work);
    LeaveSettlesNothing(p, limits, w);
    SettledOnceSame(p, Leave(p, limits, w));
  }

  lemma LeaveSettlesNothing(p: Pool, limits: B.Limits, w: WorkId)
    requires 0 < p.budget.running
    ensures Leave(p, limits, w).next == p.next && Leave(p, limits, w).settled == p.settled
  {
  }

  lemma SettledOnceSame(p: Pool, p': Pool)
    requires SettledOnce(p) && p'.work.Keys == p.work.Keys && p'.next == p.next && p'.settled == p.settled
    ensures SettledOnce(p')
  {
    assert forall w: WorkId :: w in p'.work <==> w in p.work;
  }

  lemma PhaseKeepsCharges(work: map<WorkId, Work>, w: WorkId, phase: Phase)
    requires w in work ==> !work[w].phase.Queued?
    requires !phase.Queued?
    ensures SameCharges(work, SetPhase(work, w, phase))
  {
  }

  /** Nobody waits: the place is free again. */
  lemma LeavesAlone(b: B.Budget<WorkId>, work: map<WorkId, Work>, limits: B.Limits, w: WorkId)
    requires Counted(b, work, limits) && w in work && work[w].phase.Running? && b.waiters == []
    ensures 0 < b.running
    ensures Counted(b.(running := b.running - 1), SetPhase(work, w, Returned), limits)
  {
    PhaseChange(work, w, Returned);
  }

  /** The oldest waiter takes the place. */
  lemma HandsOver(b: B.Budget<WorkId>, work: map<WorkId, Work>, limits: B.Limits, w: WorkId)
    requires Counted(b, work, limits) && w in work && work[w].phase.Running? && b.waiters != []
    ensures b.waiters[0] in work && work[b.waiters[0]].phase.Waiting?
    ensures Counted(b.(waiters := b.waiters[1..]), SetPhase(SetPhase(work, w, Returned), b.waiters[0], Running), limits)
  {
    var head, rest := b.waiters[0], b.waiters[1..];
    var returned := SetPhase(work, w, Returned);
    assert head in b.waiters;
    PhaseChange(work, w, Returned);
    PhaseChange(returned, head, Running);
    assert b.waiters == [head] + rest && head !in rest;
    hide Sum;
    var handed := SetPhase(returned, head, Running);
    forall x: WorkId
      ensures x in rest <==> x in handed && handed[x].phase.Waiting?
    {
      assert x in b.waiters <==> x in work && work[x].phase.Waiting?;
    }
  }

  lemma AbandonGrantsNobody(p: Pool, limits: B.Limits, w: WorkId)
    requires Counted(p.budget, p.work, limits) && w in p.budget.waiters
    ensures Abandon(p, limits, w) ==
            p.(budget := p.budget.(waiters := B.Remove(p.budget.waiters, w)),
               work := SetPhase(p.work, w, Returned))
  {
    B.AbandonGrantsNobody(p.budget, limits, w);
    assert B.NewlyGranted(p.budget.(waiters := B.Remove(p.budget.waiters, w)), limits) == [];
  }

  lemma AbandonKeepsInv(p: Pool, limits: B.Limits, w: WorkId)
    requires Inv(p, limits) && w in p.budget.waiters
    ensures Inv(Abandon(p, limits, w), limits)
    ensures SameCharges(p.work, Abandon(p, limits, w).work)
    ensures Abandon(p, limits, w).work[w].phase.Returned?
    ensures forall x :: x in p.work && x != w ==> Abandon(p, limits, w).work[x] == p.work[x]
  {
    hide Abandon, B.Distinct, B.NewlyGranted, B.Budget.Abandon;
    AbandonGrantsNobody(p, limits, w);
    PhaseChange(p.work, w, Returned);
    B.RemoveKeepsDistinct(p.budget.waiters, w);
  }

  lemma StartKeepsInv(p: Pool, limits: B.Limits, w: WorkId)
    requires Inv(p, limits) && w in p.work && p.work[w].phase.Queued?
    ensures Inv(Start(p, w), limits)
  {
    PhaseChange(p.work, w, Started);
  }

  lemma SettleKeepsInv(p: Pool, limits: B.Limits, w: WorkId)
    requires Inv(p, limits) && w in p.work && !p.work[w].phase.Running? && !p.work[w].phase.Waiting?
    ensures 0 < p.budget.reserved
    ensures Inv(Settle(p, w), limits)
  {
    SumDrop(p.work, RunningWeight, w);
    SumDrop(p.work, WaitingWeight, w);
    B.AppendKeepsDistinct(p.settled, w);
  }

  // ----- what a move does to each session -----

  /** Outside session `h` every charge is the same, queued or not as before. */
  ghost predicate OthersKept(a: map<WorkId, Work>, b: map<WorkId, Work>, h: Handle) {
    && (forall w :: w in a && a[w].session != h ==>
          && w in b && b[w].session == a[w].session && b[w].kind == a[w].kind
          && (b[w].phase.Queued? <==> a[w].phase.Queued?))
    && (forall w :: w in b && b[w].session != h ==> w in a && a[w].session == b[w].session)
    && (forall w :: w in b && b[w].session == h && w in a ==> a[w].session == h)
    && forall k :: k != h ==> Sum(b, ActiveIn(k)) == Sum(a, ActiveIn(k))
  }

  lemma SameChargesKeepsOthers(a: map<WorkId, Work>, b: map<WorkId, Work>, h: Handle)
    requires SameCharges(a, b)
    ensures OthersKept(a, b, h)
    ensures Sum(a, ByteWeight) == Sum(b, ByteWeight)
    ensures Sum(a, ActiveIn(h)) == Sum(b, ActiveIn(h))
  {
    SameChargesSameSums(a, b, h);
    forall k | k != h
      ensures Sum(b, ActiveIn(k)) == Sum(a, ActiveIn(k))
    {
      SameChargesSameSums(a, b, k);
    }
  }

  lemma ChargeEffect(p: Pool, h: Handle, kind: Kind, bytes: nat, phase: Phase)
    requires SettledOnce(p)
    ensures var work' := Charge(p, h, kind, bytes, phase).work;
            && OthersKept(p.work, work', h)
            && Sum(work', ByteWeight) == Sum(p.work, ByteWeight) + (if kind.Task? then bytes else 0)
            && Sum(work', ActiveIn(h)) == Sum(p.work, ActiveIn(h)) + (if kind.Task? && !phase.Queued? then 1 else 0)
  {
    var work := Work(h, kind, bytes, phase);
    SumPut(p.work, ByteWeight, p.next, work);
    SumPut(p.work, ActiveIn(h), p.next, work);
    forall k | k != h
      ensures Sum(p.work[p.next := work], ActiveIn(k)) == Sum(p.work, ActiveIn(k))
    {
      SumPut(p.work, ActiveIn(k), p.next, work);
    }
  }

  lemma StartEffect(p: Pool, w: WorkId)
    requires w in p.work && p.work[w].phase.Queued? && p.work[w].kind.Task?
    ensures var h := p.work[w].session; var work' := Start(p, w).work;
            && OthersKept(p.work, work', h)
            && Sum(work', ByteWeight) == Sum(p.work, ByteWeight)
            && Sum(work', ActiveIn(h)) == Sum(p.work, ActiveIn(h)) + 1
  {
    var h := p.work[w].session;
    var started := p.work[w].(phase := Started);
    SumPut(p.work, ByteWeight, w, started);
    SumPut(p.work, ActiveIn(h), w, started);
    forall k | k != h
      ensures Sum(p.work[w := started], ActiveIn(k)) == Sum(p.work, ActiveIn(k))
    {
      SumPut(p.work, ActiveIn(k), w, started);
    }
  }

  lemma SettleEffect(p: Pool, w: WorkId)
    requires w in p.work && 0 < p.budget.reserved
    ensures var h := p.work[w].session; var work' := Settle(p, w).work;
            && OthersKept(p.work, work', h)
            && Sum(work', ByteWeight) == Sum(p.work, ByteWeight) - ByteWeight(p.work[w])
            && Sum(work', ActiveIn(h)) == Sum(p.work, ActiveIn(h)) - ActiveIn(h)(p.work[w])
  {
    var h := p.work[w].session;
    SumDrop(p.work, ByteWeight, w);
    SumDrop(p.work, ActiveIn(h), w);
    forall k | k != h
      ensures Sum(p.work - {w}, ActiveIn(k)) == Sum(p.work, ActiveIn(k))
    {
      SumDrop(p.work, ActiveIn(k), w);
    }
  }

  lemma OthersKeptTrans(a: map<WorkId, Work>, b: map<WorkId, Work>, c: map<WorkId, Work>, h: Handle)
    requires OthersKept(a, b, h) && OthersKept(b, c, h)
    requires forall w :: w in a && w in c ==> w in b
    ensures OthersKept(a, c, h)
  {
    forall w | w in a && a[w].session != h
      ensures w in c && c[w].session == a[w].session && c[w].kind == a[w].kind
      ensures c[w].phase.Queued? <==> a[w].phase.Queued?
    {
      assert w in b && b[w].session != h;
    }
  }

  /** Aborting the context of a session takes its calls, and only them, out of the queue. */
  lemma {:induction false} AbandonAllEffect(p: Pool, limits: B.Limits, ws: seq<WorkId>)
    requires Inv(p, limits)
    ensures var p' := AbandonAll(p, limits, ws);
            && Inv(p', limits)
            && SameCharges(p.work, p'.work)
            && (forall w :: w in p'.work ==>
                  if w in ws && p.work[w].phase.Waiting? then p'.work[w].phase.Returned?
                  else p'.work[w] == p.work[w])
    decreases |ws|
  {
    hide Abandon, Inv, SameCharges;
    if ws == [] {
      SameChargesItself(p.work);
    } else {
      var p1 := Abandon(p, limits, ws[0]);
      AbandonOne(p, limits, ws[0]);
      AbandonAllEffect(p1, limits, ws[1..]);
      SameChargesTrans(p.work, p1.work, AbandonAll(p, limits, ws).work);
      SameChargesKeys(p.work, p1.work);
      SameChargesKeys(p1.work, AbandonAll(p, limits, ws).work);
      assert ws == [ws[0]] + ws[1..];
    }
  }

  lemma AbandonOne(p: Pool, limits: B.Limits, w: WorkId)
    requires Inv(p, limits)
    ensures Inv(Abandon(p, limits, w), limits)
    ensures SameCharges(p.work, Abandon(p, limits, w).work)
    ensures forall x :: x in p.work && x in Abandon(p, limits, w).work ==>
              if x == w && p.work[x].phase.Waiting? then Abandon(p, limits, w).work[x].phase.Returned?
              else Abandon(p, limits, w).work[x] == p.work[x]
  {
    if w in p.budget.waiters {
      AbandonKeepsInv(p, limits, w);
    }
    hide Abandon, SettledOnce;
  }

  lemma SameChargesItself(a: map<WorkId, Work>)
    ensures SameCharges(a, a)
  {
  }

  lemma SameChargesKeys(a: map<WorkId, Work>, b: map<WorkId, Work>)
    requires SameCharges(a, b)
    ensures a.Keys == b.Keys
  {
  }

  lemma SameChargesTrans(a: map<WorkId, Work>, b: map<WorkId, Work>, c: map<WorkId, Work>)
    requires SameCharges(a, b) && SameCharges(b, c)
    ensures SameCharges(a, c)
  {
  }

  ghost predicate QueuedFor(work: map<WorkId, Work>, ws: seq<WorkId>, h: Handle) {
    forall w :: w in ws ==> w in work && work[w].session == h && work[w].kind.Task? && work[w].phase.Queued?
  }

  /** `after` is `before` without `ws`. */
  ghost predicate Without(before: map<WorkId, Work>, after: map<WorkId, Work>, ws: seq<WorkId>) {
    && (forall w :: w in after <==> w in before && w !in ws)
    && (forall w :: w in after ==> after[w] == before[w])
  }

  /** Discarding a session's queue settles exactly that queue, in order, and leaves its slots alone. */
  lemma SettleAllEffect(p: Pool, limits: B.Limits, ws: seq<WorkId>, h: Handle)
    requires Inv(p, limits) && B.Distinct(ws) && QueuedFor(p.work, ws, h)
    ensures var p' := SettleAll(p, ws);
            && Inv(p', limits)
            && Without(p.work, p'.work, ws)
            && OthersKept(p.work, p'.work, h)
            && Sum(p'.work, ActiveIn(h)) == Sum(p.work, ActiveIn(h))
            && Sum(p'.work, ByteWeight) == Sum(p.work, ByteWeight) - BytesOf(p.work, ws)
  {
    SettleAllShape(p, limits, ws, h);
    SettleAllSums(p, limits, ws, h);
  }

  lemma SettleFirst(p: Pool, limits: B.Limits, ws: seq<WorkId>, h: Handle)
    requires ws != []
    requires Inv(p, limits) && B.Distinct(ws) && QueuedFor(p.work, ws, h)
    ensures var w := ws[0]; var p1 := Settle(p, w);
            && w in p.work && p.work[w].session == h && 0 < p.budget.reserved
            && p1.work == p.work - {w} && p1.settled == p.settled + [w]
            && Inv(p1, limits) && B.Distinct(ws[1..]) && QueuedFor(p1.work, ws[1..], h)
            && ActiveIn(h)(p.work[w]) == 0
  {
    var w := ws[0];
    SettleKeepsInv(p, limits, w);
    SettleShape(p, w);
    hide Inv, Settle;
    assert ws == [w] + ws[1..];
    assert w !in ws[1..];
  }

  lemma {:induction false} SettleAllShape(p: Pool, limits: B.Limits, ws: seq<WorkId>, h: Handle)
    requires Inv(p, limits) && B.Distinct(ws) && QueuedFor(p.work, ws, h)
    ensures var p' := SettleAll(p, ws);
            && Inv(p', limits)
            && Without(p.work, p'.work, ws)
    decreases |ws|
  {
    if ws != [] {
      hide Inv, Settle, QueuedFor, B.Distinct;
      SettleFirst(p, limits, ws, h);
      var p1 := Settle(p, ws[0]);
      SettleAllShape(p1, limits, ws[1..], h);
      WithoutTwo(p.work, p1.work, SettleAll(p, ws).work, ws);
    }
  }

  lemma {:induction false} SettleAllSums(p: Pool, limits: B.Limits, ws: seq<WorkId>, h: Handle)
    requires Inv(p, limits) && B.Distinct(ws) && QueuedFor(p.work, ws, h)
    ensures var p' := SettleAll(p, ws);
            && OthersKept(p.work, p'.work, h)
            && Sum(p'.work, ActiveIn(h)) == Sum(p.work, ActiveIn(h))
            && Sum(p'.work, ByteWeight) == Sum(p.work, ByteWeight) - BytesOf(p.work, ws)
    decreases |ws|
  {
    if ws != [] {
      hide Inv, Settle, B.Distinct, OthersKept;
      SettleFirst(p, limits, ws, h);
      SettleEffect(p, ws[0]);
      var p1 := Settle(p, ws[0]);
      assert forall w :: w in ws[1..] ==> w in p1.work && p1.work[w] == p.work[w];
      SettleAllShape(p1, limits, ws[1..], h);
      SettleAllSums(p1, limits, ws[1..], h);
      BytesOfSame(p.work, p1.work, ws[1..]);
      hide QueuedFor;
      OthersKeptTrans(p.work, p1.work, SettleAll(p, ws).work, h);
    }
  }

  lemma SettleShape(p: Pool, w: WorkId)
    requires w in p.work && 0 < p.budget.reserved
    ensures var p' := Settle(p, w);
            p'.work == p.work - {w} && p'.settled == p.settled + [w] && p'.next == p.next
  {
  }

  lemma WithoutTwo(a: map<WorkId, Work>, b: map<WorkId, Work>, c: map<WorkId, Work>, ws: seq<WorkId>)
    requires ws != [] && b == a - {ws[0]} && Without(b, c, ws[1..])
    ensures Without(a, c, ws)
  {
    assert ws == [ws[0]] + ws[1..];
  }

  lemma {:induction false} BytesOfSame(a: map<WorkId, Work>, b: map<WorkId, Work>, ws: seq<WorkId>)
    requires forall w :: w in ws ==> w in a && w in b && a[w] == b[w]
    ensures BytesOf(a, ws) == BytesOf(b, ws)
  {
    if ws != [] {
      assert ws[0] in ws;
      BytesOfSame(a, b, ws[1..]);
    }
  }

  // ----- what follows -----

  /** Running plus waiting never exceeds what is reserved, and at most `pending` calls ever wait. */
  lemma WaitersAreBounded(p: Pool, limits: B.Limits)
    requires Inv(p, limits)
    ensures p.budget.running + |p.budget.waiters| <= p.budget.reserved <= limits.concurrency + limits.pending
    ensures p.budget.running <= limits.concurrency
    ensures |p.budget.waiters| <= limits.pending
  {
    SumOfTwo(p.work, RunningWeight, WaitingWeight, |p.work|);
  }

  /** Once nothing is charged every counter is back at zero. */
  lemma EmptyPoolIsFree(p: Pool, limits: B.Limits)
    requires Inv(p, limits) && p.work == map[]
    ensures p.budget == B.Budget(0, 0, []) && |p.settled| == p.next
  {
    SumZero(p.work, RunningWeight);
    SumZero(p.work, WaitingWeight);
    DistinctBelow(p.settled, p.next);
  }

  lemma {:induction false} DistinctBelow(s: seq<int>, n: nat)
    requires B.Distinct(s)
    requires forall x :: x in s <==> 0 <= x < n
    ensures |s| == n
    decreases n
  {
    if s == [] {
      assert 0 < n ==> 0 in s;
    } else {
      var first := s[0];
      assert first in s;
      assert n - 1 in s;
      B.RemoveKeepsDistinct(s, n - 1);
      DistinctBelow(B.Remove(s, n - 1), n - 1);
    }
  }

  lemma SameChargesSameSums(a: map<WorkId, Work>, b: map<WorkId, Work>, h: Handle)
    requires SameCharges(a, b)
    ensures Sum(a, ByteWeight) == Sum(b, ByteWeight)
    ensures Sum(a, ActiveIn(h)) == Sum(b, ActiveIn(h))
  {
    SumSame(a, b, ByteWeight);
    SumSame(a, b, ActiveIn(h));
  }
}
