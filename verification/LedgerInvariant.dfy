/**
  What every state of the ledger satisfies, group by group. Each group is a predicate over just the
  fields it speaks of, so that a segment that leaves those fields alone keeps it for nothing.
*/
module LedgerInvariant {
  import opened Wrappers
  import opened Sums
  import opened Lifecycles
  import opened Pools
  import opened Ledgers
  import B = Budgets
  import F = Feeds
  import IP = Slots
  import Srv = Servers
  import T = Tasks

  // ----- work and the sessions it belongs to -----

  predicate QueuedIn(work: map<WorkId, Work>, w: WorkId, h: Handle) {
    w in work && work[w].session == h && work[w].kind.Task? && work[w].phase.Queued?
  }

  predicate AdmissionOf(work: map<WorkId, Work>, w: WorkId, h: Handle) {
    w in work && work[w].session == h && work[w].kind.Admission?
  }

  /** A session's scheduler counter, scheduler queue and admission are exactly its charged work. */
  ghost predicate SlotOk(h: Handle, m: Session, work: map<WorkId, Work>, limits: T.Limits) {
    && m.tasks.Bounded(limits)
    && B.Distinct(m.tasks.pending)
    && m.tasks.active == Sum(work, ActiveIn(h))
    && (forall w: WorkId :: w in m.tasks.pending <==> QueuedIn(work, w, h))
    && (forall w: WorkId :: m.admission == Some(w) <==> AdmissionOf(work, w, h))
    && (forall w: WorkId :: AdmissionOf(work, w, h) ==> !work[w].phase.Queued?)
  }

  ghost predicate Placed(work: map<WorkId, Work>, sessions: map<Handle, Session>, outstanding: set<Handle>,
                         limits: T.Limits)
  {
    && outstanding <= sessions.Keys
    && (forall w :: w in work ==> work[w].session in outstanding)
    && (forall h :: h in sessions ==> SlotOk(h, sessions[h], work, limits))
  }

  /** No call of an aborted context is left in the global queue. */
  ghost predicate NoAbortedWaiters(work: map<WorkId, Work>, sessions: map<Handle, Session>) {
    forall w :: w in work && work[w].phase.Waiting? ==>
      work[w].session in sessions && !sessions[work[w].session].ContextAborted()
  }

  // ----- bytes -----

  function FeedWeight(m: Session): nat {
    F.Size(m.feed.queue)
  }

  /** The server's byte counter is every queued datagram plus every datagram submitted and not settled. */
  ghost predicate Charged(queuedBytes: int, work: map<WorkId, Work>, sessions: map<Handle, Session>) {
    queuedBytes == Sum(work, ByteWeight) + Sum(sessions, FeedWeight)
  }

  // ----- one session -----

  /** What was observed while retiring is still so. */
  ghost predicate RetirementOk(m: Session, r: Retirement) {
    && (m.admission == None || m.admission == r.admission)
    && m.pumps <= r.pumps
    && (r.admissionSeen ==> m.admission == None)
    && (r.idleSeen ==> m.tasks.Idle())
    && (r.pumpsSeen ==> m.pumps == {})
  }

  ghost predicate SessionOk(m: Session, cfg: Config) {
    && F.Ok(m.feed, cfg.queueSize)
    && (m.tasks.accepting <==> !m.intakeAborted)
    && (m.intakeAborted ==> m.feed.queue == [])
    && (m.feed.queue != [] ==> !m.feed.drain.NotDraining?)
    && (m.feed.drain.NotDraining? <==> DrainPump !in m.pumps)
    && (m.feed.drain.AwaitingCapacity? ==> m.Waits(cfg.tasks))
    && (m.signalAborted ==> m.finalized)
    && (m.finalized ==> m.intakeAborted && m.admissionAborted && m.tasks.pending == [])
    && (m.finalized <==> m.retirement.Some?)
    && (m.retirement.Some? ==> RetirementOk(m, m.retirement.value))
  }

  /** A session that has given its slots back holds nothing any more. */
  ghost predicate Gone(m: Session) {
    && m.finalized
    && !m.tasks.accepting && m.tasks.Idle()
    && m.admission == None
    && m.feed.queue == []
    && m.pumps == {}
  }

  ghost predicate AllOk(sessions: map<Handle, Session>, outstanding: set<Handle>, cfg: Config) {
    forall h :: h in sessions ==> SessionOk(sessions[h], cfg) && (h !in outstanding ==> Gone(sessions[h]))
  }

  // ----- slots -----

  /** `sessions` of the program is exactly the part of `outstandingSessions` that is not finalized. */
  ghost predicate Registered(ids: map<SessionId, Handle>, outstanding: set<Handle>,
                             sessions: map<Handle, Session>, maxSessions: nat)
  {
    && |outstanding| <= maxSessions
    && (forall id :: id in ids ==> ids[id] in sessions && !sessions[ids[id]].finalized && sessions[ids[id]].id == id)
    && (forall h :: h in sessions && !sessions[h].finalized ==>
          h in outstanding && sessions[h].id in ids && ids[sessions[h].id] == h)
  }

  ghost function FromIp(outstanding: set<Handle>, sessions: map<Handle, Session>, a: IP.Address): set<Handle> {
    set h | h in outstanding && h in sessions && sessions[h].ip == a
  }

  /** Each address is charged for exactly its outstanding sessions. */
  ghost predicate IpCounted(table: IP.Table, outstanding: set<Handle>, sessions: map<Handle, Session>, limits: IP.Limits) {
    && IP.Bounded(table, limits)
    && forall a :: IP.Active(table, a) == |FromIp(outstanding, sessions, a)|
  }

  // ----- streams -----

  ghost predicate StreamsCounted(streams: map<StreamId, Stream>, active: int, sessions: map<Handle, Session>, cfg: Config) {
    && active == |streams| <= cfg.maxStreams
    && (forall k :: k in streams ==> streams[k].session in sessions && !sessions[streams[k].session].signalAborted)
    && (forall h, kind :: h in sessions ==>
          sessions[h].Streams(kind) == |StreamsOf(streams, h, kind)| <= cfg.MaxStreams(kind))
  }

  // ----- the server -----

  ghost predicate ServerOk(server: Srv.Server, ids: map<SessionId, Handle>, outstanding: set<Handle>,
                           sessions: map<Handle, Session>)
  {
    && Srv.Inv(server)
    && (server.state != ServerState.Running ==>
          forall h :: h in outstanding && h in sessions ==> sessions[h].intakeAborted)
    && (server.state in {Stopped, Starting} ==> ids == map[])
  }

  ghost predicate Accounted(s: State, cfg: Config) {
    && Pools.Inv(s.pool, cfg.handlers)
    && Placed(s.pool.work, s.sessions, s.outstanding, cfg.tasks)
    && NoAbortedWaiters(s.pool.work, s.sessions)
    && Charged(s.queuedBytes, s.pool.work, s.sessions) && s.queuedBytes <= cfg.maxQueuedBytes
    && AllOk(s.sessions, s.outstanding, cfg)
    && Registered(s.ids, s.outstanding, s.sessions, cfg.maxSessions)
    && IpCounted(s.ip, s.outstanding, s.sessions, cfg.ip)
    && StreamsCounted(s.streams, s.activeStreams, s.sessions, cfg)
    && ServerOk(s.server, s.ids, s.outstanding, s.sessions)
  }

  // ----- changing one session record -----

  lemma PutPlaced(work: map<WorkId, Work>, sessions: map<Handle, Session>, outstanding: set<Handle>,
                  limits: T.Limits, h: Handle, m: Session)
    requires Placed(work, sessions, outstanding, limits) && h in sessions
    requires m.tasks.active == sessions[h].tasks.active && m.tasks.pending == sessions[h].tasks.pending
    requires m.admission == sessions[h].admission
    ensures Placed(work, sessions[h := m], outstanding, limits)
  {
    assert SlotOk(h, sessions[h], work, limits);
    assert SlotOk(h, m, work, limits);
    hide SlotOk;
  }

  lemma PutWaiters(work: map<WorkId, Work>, sessions: map<Handle, Session>, h: Handle, m: Session)
    requires NoAbortedWaiters(work, sessions) && h in sessions
    requires m.ContextAborted() ==> sessions[h].ContextAborted()
    ensures NoAbortedWaiters(work, sessions[h := m])
  {
  }

  lemma PutCharged(queuedBytes: int, work: map<WorkId, Work>, sessions: map<Handle, Session>, h: Handle, m: Session)
    requires Charged(queuedBytes, work, sessions) && h in sessions
    ensures Charged(queuedBytes + FeedWeight(m) - FeedWeight(sessions[h]), work, sessions[h := m])
  {
    SumPut(sessions, FeedWeight, h, m);
  }

  lemma PutAllOk(sessions: map<Handle, Session>, outstanding: set<Handle>, cfg: Config, h: Handle, m: Session)
    requires AllOk(sessions, outstanding, cfg) && h in sessions
    requires SessionOk(m, cfg) && (h !in outstanding ==> Gone(m))
    ensures AllOk(sessions[h := m], outstanding, cfg)
  {
    hide SessionOk, Gone;
  }

  lemma PutRegistered(ids: map<SessionId, Handle>, outstanding: set<Handle>, sessions: map<Handle, Session>,
                      maxSessions: nat, h: Handle, m: Session)
    requires Registered(ids, outstanding, sessions, maxSessions) && h in sessions
    requires m.id == sessions[h].id && m.finalized == sessions[h].finalized
    ensures Registered(ids, outstanding, sessions[h := m], maxSessions)
  {
  }

  lemma PutIpCounted(table: IP.Table, outstanding: set<Handle>, sessions: map<Handle, Session>, limits: IP.Limits,
                     h: Handle, m: Session)
    requires IpCounted(table, outstanding, sessions, limits) && h in sessions && m.ip == sessions[h].ip
    ensures IpCounted(table, outstanding, sessions[h := m], limits)
  {
    forall a
      ensures FromIp(outstanding, sessions[h := m], a) == FromIp(outstanding, sessions, a)
    {
    }
    hide FromIp, IP.Bounded;
  }

  lemma PutStreams(streams: map<StreamId, Stream>, active: int, sessions: map<Handle, Session>, cfg: Config,
                   h: Handle, m: Session)
    requires StreamsCounted(streams, active, sessions, cfg) && h in sessions
    requires m.bidirectional == sessions[h].bidirectional && m.unidirectional == sessions[h].unidirectional
    requires m.signalAborted == sessions[h].signalAborted
    ensures StreamsCounted(streams, active, sessions[h := m], cfg)
  {
    forall kind: StreamKind ensures m.Streams(kind) == sessions[h].Streams(kind) {
    }
    hide StreamsOf, Session.Streams;
  }

  lemma PutServerOk(server: Srv.Server, ids: map<SessionId, Handle>, outstanding: set<Handle>,
                    sessions: map<Handle, Session>, h: Handle, m: Session)
    requires ServerOk(server, ids, outstanding, sessions) && h in sessions
    requires sessions[h].intakeAborted ==> m.intakeAborted
    ensures ServerOk(server, ids, outstanding, sessions[h := m])
  {
    hide Srv.Inv;
  }

  /** What a segment may not change when it only rewrites the rest of a session's record. */
  ghost predicate Mild(m: Session, m': Session) {
    && m'.tasks.active == m.tasks.active && m'.tasks.pending == m.tasks.pending
    && m'.admission == m.admission
    && Steady(m, m')
  }

  /** What only accepting, finalizing, aborting and stream segments change. */
  ghost predicate Steady(m: Session, m': Session) {
    && m'.id == m.id && m'.ip == m.ip && m'.finalized == m.finalized
    && m'.bidirectional == m.bidirectional && m'.unidirectional == m.unidirectional
    && m'.signalAborted == m.signalAborted
    && (m.intakeAborted ==> m'.intakeAborted)
  }

  /** A segment that changes one session's record and, with its queue, the byte counter. */
  lemma PutKeepsAccounts(s: State, cfg: Config, h: Handle, m: Session, queuedBytes: int)
    requires Accounted(s, cfg) && h in s.sessions
    requires SessionOk(m, cfg) && (h !in s.outstanding ==> Gone(m))
    requires Mild(s.sessions[h], m)
    requires NoAbortedWaiters(s.pool.work, s.sessions[h := m])
    requires queuedBytes == s.queuedBytes + FeedWeight(m) - FeedWeight(s.sessions[h]) <= cfg.maxQueuedBytes
    ensures Accounted(Put(s, h, m).(queuedBytes := queuedBytes), cfg)
  {
    hide Pools.Inv, Placed, NoAbortedWaiters, Charged, AllOk, Registered, IpCounted, StreamsCounted, ServerOk;
    hide SessionOk, Gone, FeedWeight;
    PutPlaced(s.pool.work, s.sessions, s.outstanding, cfg.tasks, h, m);
    PutCharged(s.queuedBytes, s.pool.work, s.sessions, h, m);
    PutAllOk(s.sessions, s.outstanding, cfg, h, m);
    PutRegistered(s.ids, s.outstanding, s.sessions, cfg.maxSessions, h, m);
    PutIpCounted(s.ip, s.outstanding, s.sessions, cfg.ip, h, m);
    PutStreams(s.streams, s.activeStreams, s.sessions, cfg, h, m);
    PutServerOk(s.server, s.ids, s.outstanding, s.sessions, h, m);
  }

  lemma WaitersStayCalm(s: State, cfg: Config, h: Handle, m: Session)
    requires Accounted(s, cfg) && h in s.sessions
    requires m.ContextAborted() ==> s.sessions[h].ContextAborted()
    ensures NoAbortedWaiters(s.pool.work, s.sessions[h := m])
  {
    hide Pools.Inv, Placed, Charged, AllOk, Registered, IpCounted, StreamsCounted, ServerOk;
    PutWaiters(s.pool.work, s.sessions, h, m);
  }

  lemma SessionIsOk(s: State, cfg: Config, h: Handle)
    requires Accounted(s, cfg) && h in s.sessions
    ensures SessionOk(s.sessions[h], cfg)
    ensures h !in s.outstanding ==> Gone(s.sessions[h])
    ensures s.queuedBytes <= cfg.maxQueuedBytes
  {
    hide Pools.Inv, Placed, NoAbortedWaiters, Charged, Registered, IpCounted, StreamsCounted, ServerOk, SessionOk, Gone;
  }

  // ----- changing the pool -----

  /** Work of one session changes hands; the others keep theirs. */
  lemma MovePlaced(work: map<WorkId, Work>, work': map<WorkId, Work>, sessions: map<Handle, Session>,
                   outstanding: set<Handle>, limits: T.Limits, h: Handle, m: Session)
    requires Placed(work, sessions, outstanding, limits) && h in sessions
    requires OthersKept(work, work', h)
    requires SlotOk(h, m, work', limits)
    requires h in outstanding || forall w :: w in work' ==> work'[w].session != h
    ensures Placed(work', sessions[h := m], outstanding, limits)
  {
    hide SlotOk, OthersKept;
    forall k | k in sessions && k != h
      ensures SlotOk(k, sessions[k], work', limits)
    {
      MoveSlot(work, work', h, k, sessions[k], limits);
    }
    MoveOutstanding(work, work', outstanding, h);
  }

  lemma MoveOutstanding(work: map<WorkId, Work>, work': map<WorkId, Work>, outstanding: set<Handle>, h: Handle)
    requires OthersKept(work, work', h) && forall w :: w in work ==> work[w].session in outstanding
    requires h in outstanding || forall w :: w in work' ==> work'[w].session != h
    ensures forall w :: w in work' ==> work'[w].session in outstanding
  {
    forall w | w in work'
      ensures work'[w].session in outstanding
    {
      if work'[w].session != h {
        assert w in work;
      }
    }
  }

  lemma MoveSlot(work: map<WorkId, Work>, work': map<WorkId, Work>, h: Handle, k: Handle, m: Session, limits: T.Limits)
    requires SlotOk(k, m, work, limits) && OthersKept(work, work', h) && k != h
    ensures SlotOk(k, m, work', limits)
  {
    assert forall w: WorkId :: QueuedIn(work, w, k) <==> QueuedIn(work', w, k);
    assert forall w: WorkId :: AdmissionOf(work, w, k) <==> AdmissionOf(work', w, k);
    hide OthersKept, QueuedIn, AdmissionOf;
    assert Sum(work', ActiveIn(k)) == Sum(work, ActiveIn(k)) by {
      OthersKeptSum(work, work', h, k);
    }
  }

  lemma OthersKeptSum(work: map<WorkId, Work>, work': map<WorkId, Work>, h: Handle, k: Handle)
    requires OthersKept(work, work', h) && k != h
    ensures Sum(work', ActiveIn(k)) == Sum(work, ActiveIn(k))
  {
  }

  lemma SameChargesPlaced(work: map<WorkId, Work>, work': map<WorkId, Work>, sessions: map<Handle, Session>,
                          outstanding: set<Handle>, limits: T.Limits)
    requires Placed(work, sessions, outstanding, limits) && SameCharges(work, work')
    ensures Placed(work', sessions, outstanding, limits)
  {
    forall h | h in sessions
      ensures SlotOk(h, sessions[h], work', limits)
    {
      SameChargesSlot(work, work', h, sessions[h], limits);
    }
    hide SlotOk;
    assert forall w :: w in work' ==> w in work;
  }

  lemma SameChargesSlot(work: map<WorkId, Work>, work': map<WorkId, Work>, h: Handle, m: Session, limits: T.Limits)
    requires SlotOk(h, m, work, limits) && SameCharges(work, work')
    ensures SlotOk(h, m, work', limits)
  {
    assert forall w: WorkId :: QueuedIn(work, w, h) <==> QueuedIn(work', w, h);
    assert forall w: WorkId :: AdmissionOf(work, w, h) <==> AdmissionOf(work', w, h);
    SameChargesSameSums(work, work', h);
    hide SameCharges, QueuedIn, AdmissionOf;
  }

  lemma SameChargesCharged(queuedBytes: int, work: map<WorkId, Work>, work': map<WorkId, Work>,
                           sessions: map<Handle, Session>)
    requires Charged(queuedBytes, work, sessions) && SameCharges(work, work')
    ensures Charged(queuedBytes, work', sessions)
  {
    SameChargesSameSums(work, work', 0);
  }

  /** A segment that only moves work through the budget. */
  lemma PoolMoveKeepsAccounts(s: State, cfg: Config, p: Pool)
    requires Accounted(s, cfg) && Pools.Inv(p, cfg.handlers) && SameCharges(s.pool.work, p.work)
    requires NoAbortedWaiters(p.work, s.sessions)
    ensures Accounted(s.(pool := p), cfg)
  {
    hide Pools.Inv, Placed, NoAbortedWaiters, Charged, AllOk, Registered, IpCounted, StreamsCounted, ServerOk, SameCharges;
    SameChargesPlaced(s.pool.work, p.work, s.sessions, s.outstanding, cfg.tasks);
    SameChargesCharged(s.queuedBytes, s.pool.work, p.work, s.sessions);
  }

  /** A segment in which one session's charges change: `delta` bytes leave the server with them. */
  lemma WorkMoveKeepsAccounts(s: State, cfg: Config, h: Handle, m: Session, p: Pool, queuedBytes: int)
    requires Accounted(s, cfg) && h in s.sessions
    requires Pools.Inv(p, cfg.handlers)
    requires OthersKept(s.pool.work, p.work, h) && SlotOk(h, m, p.work, cfg.tasks)
    requires h in s.outstanding || forall w :: w in p.work ==> p.work[w].session != h
    requires NoAbortedWaiters(p.work, s.sessions[h := m])
    requires queuedBytes == Sum(p.work, ByteWeight) + Sum(s.sessions, FeedWeight) + FeedWeight(m) - FeedWeight(s.sessions[h])
    requires queuedBytes <= cfg.maxQueuedBytes
    requires SessionOk(m, cfg) && (h !in s.outstanding ==> Gone(m))
    requires Steady(s.sessions[h], m)
    ensures Accounted(Put(s, h, m).(pool := p, queuedBytes := queuedBytes), cfg)
  {
    hide Pools.Inv, Placed, NoAbortedWaiters, AllOk, Registered, IpCounted, StreamsCounted, ServerOk;
    hide SessionOk, Gone, FeedWeight, SlotOk, OthersKept;
    MovePlaced(s.pool.work, p.work, s.sessions, s.outstanding, cfg.tasks, h, m);
    SumPut(s.sessions, FeedWeight, h, m);
    PutAllOk(s.sessions, s.outstanding, cfg, h, m);
    PutRegistered(s.ids, s.outstanding, s.sessions, cfg.maxSessions, h, m);
    PutIpCounted(s.ip, s.outstanding, s.sessions, cfg.ip, h, m);
    PutStreams(s.streams, s.activeStreams, s.sessions, cfg, h, m);
    PutServerOk(s.server, s.ids, s.outstanding, s.sessions, h, m);
  }
}
