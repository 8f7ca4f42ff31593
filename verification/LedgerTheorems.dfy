/** What holds in every state of every run of the runtime, whatever the environment does. */
module LedgerTheorems {
  import opened Sums
  import opened Pools
  import opened Ledgers
  import opened LedgerInvariant
  import opened LedgerSteps
  import opened LedgerEnds
  import opened LedgerRuns
  import B = Budgets
  import F = Feeds
  import IP = Slots
  import Srv = Servers

  lemma StepKeepsAccounts(s: State, cfg: Config, e: Event)
    requires cfg.Valid() && Accounted(s, cfg) && Enabled(s, cfg, e)
    ensures Accounted(Step(s, cfg, e), cfg)
  {
    hide Accounted;
    match e {
      case Offered(h, offer) => AcceptKeepsAccounts(s, cfg, h, offer);
      case AdmissionTimedOut(h) => TimeOutKeepsAccounts(s, cfg, h);
      case AdmissionConcluded(h, pumps) => ConcludeKeepsAccounts(s, cfg, h, pumps);
      case DatagramRead(h, arrival) => ReadDatagramKeepsAccounts(s, cfg, h, arrival);
      case DrainResumed(h) => ResumeDrainKeepsAccounts(s, cfg, h);
      case DrainContinued(h) => ContinueDrainKeepsAccounts(s, cfg, h);
      case StreamRead(h, kind, k, aborted) => ReadStreamKeepsAccounts(s, cfg, h, kind, k, aborted);
      case StreamEnded(k) => ReleaseKeepsAccounts(s, cfg, k);
      case PumpEnded(h, pump) => PumpEndKeepsAccounts(s, cfg, h, pump);
      case TaskBegan(w) => BeginKeepsAccounts(s, cfg, w);
      case CallReturned(w) => ReturnKeepsAccounts(s, cfg, w);
      case TaskSettled(w) => FinishKeepsAccounts(s, cfg, s.pool.work[w].session, w);
      case AdmissionWorkSettled(w) => SettleAdmissionKeepsAccounts(s, cfg, s.pool.work[w].session, w);
      case SignalAborted(h) => AbortKeepsAccounts(s, cfg, h);
      case Observed(h, what) => ObserveKeepsAccounts(s, cfg, h, what);
      case Retired(h, now) => RetireKeepsAccounts(s, cfg, h, now);
      case ServerMoved(e, order) => MoveServerKeepsAccounts(s, cfg, e, order);
    }
  }

  lemma InitialIsAccounted(cfg: Config)
    requires cfg.Valid()
    ensures Accounted(Initial(), cfg)
  {
    var s := Initial();
    assert s.server.starts.Keys == {};
    forall a ensures FromIp(s.outstanding, s.sessions, a) == {} {
    }
  }

  ghost predicate IsRun(cfg: Config, states: seq<State>, events: seq<Event>) {
    && cfg.Valid()
    && |states| == |events| + 1
    && states[0] == Initial()
    && forall i :: 0 <= i < |events| ==>
         Enabled(states[i], cfg, events[i]) && states[i + 1] == Step(states[i], cfg, events[i])
  }

  lemma {:induction false} EveryRunIsAccounted(cfg: Config, states: seq<State>, events: seq<Event>, k: nat)
    requires IsRun(cfg, states, events) && k < |states|
    ensures Accounted(states[k], cfg)
  {
    hide Accounted, Enabled, Step;
    if k == 0 {
      InitialIsAccounted(cfg);
    } else {
      EveryRunIsAccounted(cfg, states, events, k - 1);
      StepKeepsAccounts(states[k - 1], cfg, events[k - 1]);
      assert states[k - 1 + 1] == Step(states[k - 1], cfg, events[k - 1]);
    }
  }

  // ----- bytes -----

  /** The server's byte counter is exactly the bytes in the sessions' queues plus the bytes of every
      datagram submitted and not settled; it is never negative and never over its limit; and each
      session's own counter is exactly its queue. */
  lemma BytesAreExact(cfg: Config, states: seq<State>, events: seq<Event>, k: nat)
    requires IsRun(cfg, states, events) && k < |states|
    ensures var s := states[k];
            && s.queuedBytes == Sum(s.sessions, FeedWeight) + Sum(s.pool.work, ByteWeight)
            && 0 <= s.queuedBytes <= cfg.maxQueuedBytes
            && (forall h :: h in s.sessions ==> s.sessions[h].feed.bytes == F.Size(s.sessions[h].feed.queue))
  {
    EveryRunIsAccounted(cfg, states, events, k);
    var s := states[k];
    hide Accounted, SessionOk, Gone, IsRun;
    BytesAreCharged(s, cfg);
    forall h | h in s.sessions
      ensures s.sessions[h].feed.bytes == F.Size(s.sessions[h].feed.queue)
    {
      SessionIsOk(s, cfg, h);
      FeedIsOk(s.sessions[h], cfg);
    }
  }

  lemma FeedIsOk(m: Session, cfg: Config)
    requires SessionOk(m, cfg)
    ensures F.Ok(m.feed, cfg.queueSize)
    ensures m.feed.bytes == F.Size(m.feed.queue)
    ensures m.feed.queue != [] && m.Reading() ==> !m.feed.drain.NotDraining? && DrainPump in m.pumps
  {
    hide F.Size, F.Increasing, F.Below;
  }

  /** Of every session's datagrams read past the abort check, each is dropped, still queued, submitted
      or cleared; what was submitted is an in-order part of what arrived, and all of it arrived before
      what is still queued. */
  lemma DatagramsAreAccountedFor(cfg: Config, states: seq<State>, events: seq<Event>, k: nat, h: Handle)
    requires IsRun(cfg, states, events) && k < |states| && h in states[k].sessions
    ensures var f := states[k].sessions[h].feed;
            && f.read == f.dropped + |f.queue| + |f.submitted| + f.cleared
            && |f.queue| <= cfg.queueSize
            && F.Increasing(f.submitted + F.Numbers(f.queue))
            && F.Below(f.submitted + F.Numbers(f.queue), f.read)
  {
    EveryRunIsAccounted(cfg, states, events, k);
    hide Accounted, SessionOk, Gone, IsRun;
    SessionIsOk(states[k], cfg, h);
    FeedIsOk(states[k].sessions[h], cfg);
  }

  /** A session that may still read never holds datagrams without a drain loop working on them. */
  lemma NothingIsStranded(cfg: Config, states: seq<State>, events: seq<Event>, k: nat, h: Handle)
    requires IsRun(cfg, states, events) && k < |states| && h in states[k].sessions
    requires states[k].sessions[h].feed.queue != [] && states[k].sessions[h].Reading()
    ensures !states[k].sessions[h].feed.drain.NotDraining? && DrainPump in states[k].sessions[h].pumps
    ensures h in states[k].outstanding
  {
    EveryRunIsAccounted(cfg, states, events, k);
    hide Accounted, SessionOk, IsRun;
    SessionIsOk(states[k], cfg, h);
    FeedIsOk(states[k].sessions[h], cfg);
  }

  // ----- work -----

  /** Across admissions and all sessions' schedulers: running plus waiting never exceeds what is
      reserved, what is reserved never exceeds the server's capacity, no more than the limit run, no
      more than `pending` ever wait, and a call waits only while every place is taken. */
  lemma WorkIsBounded(cfg: Config, states: seq<State>, events: seq<Event>, k: nat)
    requires IsRun(cfg, states, events) && k < |states|
    ensures var b := states[k].pool.budget; var limits := cfg.handlers;
            && b.running + |b.waiters| <= b.reserved <= limits.concurrency + limits.pending
            && b.running <= limits.concurrency
            && |b.waiters| <= limits.pending
            && (b.waiters != [] ==> b.running == limits.concurrency)
            && b.reserved == |states[k].pool.work|
  {
    EveryRunIsAccounted(cfg, states, events, k);
    hide Accounted, IsRun;
    PoolIsOk(states[k], cfg);
    WaitersAreBounded(states[k].pool, cfg.handlers);
  }

  /** Every piece of work ever submitted is either charged now or was settled exactly once, never both. */
  lemma WorkSettlesOnce(cfg: Config, states: seq<State>, events: seq<Event>, k: nat, w: WorkId)
    requires IsRun(cfg, states, events) && k < |states| && w < states[k].pool.next
    ensures var p := states[k].pool;
            && (w in p.work <==> w !in p.settled)
            && B.Distinct(p.settled)
  {
    EveryRunIsAccounted(cfg, states, events, k);
    hide Accounted, IsRun, Counted, B.Distinct;
    PoolIsOk(states[k], cfg);
  }

  /** Nothing of a session whose context has aborted is left waiting for the global budget, and every
      session's scheduler counters are exactly its charged tasks. */
  lemma AbortedSessionsDoNotWait(cfg: Config, states: seq<State>, events: seq<Event>, k: nat, w: WorkId)
    requires IsRun(cfg, states, events) && k < |states| && w in states[k].pool.budget.waiters
    ensures var s := states[k];
            && w in s.pool.work && s.pool.work[w].session in s.outstanding && s.pool.work[w].session in s.sessions
            && !s.sessions[s.pool.work[w].session].ContextAborted()
  {
    EveryRunIsAccounted(cfg, states, events, k);
    hide Accounted, IsRun;
    PoolIsOk(states[k], cfg);
    WorkIsPlaced(states[k], cfg, w);
  }

  lemma SchedulersMatchTheirWork(cfg: Config, states: seq<State>, events: seq<Event>, k: nat, h: Handle)
    requires IsRun(cfg, states, events) && k < |states| && h in states[k].sessions
    ensures var s := states[k]; var tasks := s.sessions[h].tasks;
            && tasks.Bounded(cfg.tasks)
            && tasks.active == Sum(s.pool.work, ActiveIn(h))
            && (forall w: WorkId :: w in tasks.pending <==> QueuedIn(s.pool.work, w, h))
  {
    EveryRunIsAccounted(cfg, states, events, k);
    hide Accounted, IsRun, QueuedIn, AdmissionOf;
    AdmissionIsWork(states[k], cfg, h);
  }

  // ----- leaks -----

  /** Nothing is reserved, running, waiting, queued, charged to an address or registered, and all work
      ever submitted has been settled. */
  ghost predicate AllGivenBack(s: State) {
    && s.pool.work == map[]
    && s.pool.budget == B.Budget(0, 0, [])
    && |s.pool.settled| == s.pool.next
    && s.queuedBytes == 0
    && (forall a :: IP.Active(s.ip, a) == 0)
    && s.ids == map[]
  }

  /** No session whose own signal has not aborted has a stream. Its own signal is what the transport
      aborts when the session is closed there. */
  ghost predicate NoLiveStreams(s: State) {
    forall h :: h in s.sessions && !s.sessions[h].signalAborted ==>
      s.sessions[h].bidirectional == 0 && s.sessions[h].unidirectional == 0
  }

  /** Whenever no session is outstanding, everything the sessions were charged has been given back. The
      stream counter is zero as well exactly if no session is left with a stream and an own signal that
      has not aborted: see `LedgerStreams` for who such a session can be. */
  lemma NothingLeaks(cfg: Config, states: seq<State>, events: seq<Event>, k: nat)
    requires IsRun(cfg, states, events) && k < |states| && states[k].outstanding == {}
    ensures AllGivenBack(states[k])
    ensures states[k].activeStreams == 0 <==> NoLiveStreams(states[k])
  {
    EveryRunIsAccounted(cfg, states, events, k);
    hide Accounted, IsRun, AllGivenBack, NoLiveStreams;
    NobodyHoldsAnything(states[k], cfg);
    NoStreamsIff(states[k], cfg);
  }

  lemma NoStreamsIff(s: State, cfg: Config)
    requires Accounted(s, cfg)
    ensures s.activeStreams == 0 <==> NoLiveStreams(s)
  {
    hide Accounted;
    StreamsAreCounted(s, cfg);
    if s.activeStreams == 0 {
      assert s.streams == map[];
      forall h | h in s.sessions
        ensures s.sessions[h].bidirectional == 0 && s.sessions[h].unidirectional == 0
      {
        assert s.sessions[h].Streams(Bidirectional) == |StreamsOf(s.streams, h, Bidirectional)|;
        assert s.sessions[h].Streams(Unidirectional) == |StreamsOf(s.streams, h, Unidirectional)|;
        assert StreamsOf(s.streams, h, Bidirectional) == {} == StreamsOf(s.streams, h, Unidirectional);
      }
    } else {
      var k :| k in s.streams;
      var h := s.streams[k].session;
      KindsCover(s.streams, k);
      assert s.sessions[h].Streams(Bidirectional) == |StreamsOf(s.streams, h, Bidirectional)|;
      assert s.sessions[h].Streams(Unidirectional) == |StreamsOf(s.streams, h, Unidirectional)|;
    }
  }

  lemma NobodyHoldsAnything(s: State, cfg: Config)
    requires Accounted(s, cfg) && s.outstanding == {}
    ensures AllGivenBack(s)
  {
    hide Accounted, Pools.Inv, SessionOk, FeedWeight;
    PoolIsOk(s, cfg);
    assert s.pool.work == map[] by {
      forall w | w in s.pool.work ensures false {
        WorkIsPlaced(s, cfg, w);
      }
    }
    EmptyPoolIsFree(s.pool, cfg.handlers);
    SumZero(s.pool.work, ByteWeight);
    BytesAreCharged(s, cfg);
    GoneWeighNothing(s, cfg);
    IpIsCounted(s, cfg);
    forall a ensures IP.Active(s.ip, a) == 0 {
      assert FromIp(s.outstanding, s.sessions, a) == {};
    }
    NobodyRegistered(s, cfg);
  }

  lemma GoneWeighNothing(s: State, cfg: Config)
    requires Accounted(s, cfg) && s.outstanding == {}
    ensures Sum(s.sessions, FeedWeight) == 0
  {
    hide Accounted, SessionOk;
    forall h | h in s.sessions ensures FeedWeight(s.sessions[h]) == 0 {
      SessionIsOk(s, cfg, h);
    }
    hide FeedWeight;
    SumZero(s.sessions, FeedWeight);
  }

  lemma NobodyRegistered(s: State, cfg: Config)
    requires Accounted(s, cfg) && s.outstanding == {}
    ensures s.ids == map[]
  {
    hide Accounted;
    ServerIsOk(s, cfg);
    hide ServerOk;
  }

  // ----- slots -----

  /** The number of outstanding sessions is bounded, and the program's `sessions` map is exactly the
      part of them that is not finalized, one entry per session id. */
  lemma SlotsAreBounded(cfg: Config, states: seq<State>, events: seq<Event>, k: nat)
    requires IsRun(cfg, states, events) && k < |states|
    ensures var s := states[k];
            && |s.outstanding| <= cfg.maxSessions
            && (forall id :: id in s.ids ==>
                  && s.ids[id] in s.outstanding && s.ids[id] in s.sessions
                  && !s.sessions[s.ids[id]].finalized && s.sessions[s.ids[id]].id == id)
            && (forall h :: h in s.outstanding && h in s.sessions && !s.sessions[h].finalized ==>
                  s.sessions[h].id in s.ids && s.ids[s.sessions[h].id] == h)
  {
    EveryRunIsAccounted(cfg, states, events, k);
    hide Accounted, IsRun, ServerOk;
    ServerIsOk(states[k], cfg);
  }

  /** Each address is charged for exactly its outstanding sessions, never more than its limit; an
      address that is charged has a record; and the table never outgrows its limit. */
  lemma AddressesAreCharged(cfg: Config, states: seq<State>, events: seq<Event>, k: nat, a: IP.Address)
    requires IsRun(cfg, states, events) && k < |states|
    ensures var s := states[k];
            && IP.Active(s.ip, a) == |FromIp(s.outstanding, s.sessions, a)| <= cfg.ip.maxPerIp
            && (FromIp(s.outstanding, s.sessions, a) != {} ==> a in s.ip)
            && |s.ip| <= cfg.maxSessions
  {
    EveryRunIsAccounted(cfg, states, events, k);
    hide Accounted, IsRun, FromIp;
    IpIsCounted(states[k], cfg);
  }

  /** The server's stream counter is exactly the tracked streams that are not released, within the
      limits, and no stream is still tracked for a session whose signal has aborted. */
  lemma StreamsAreExact(cfg: Config, states: seq<State>, events: seq<Event>, k: nat, h: Handle, kind: StreamKind)
    requires IsRun(cfg, states, events) && k < |states| && h in states[k].sessions
    ensures var s := states[k];
            && s.activeStreams == |s.streams| <= cfg.maxStreams
            && s.sessions[h].Streams(kind) == |StreamsOf(s.streams, h, kind)| <= cfg.MaxStreams(kind)
            && (s.sessions[h].signalAborted ==> StreamsOf(s.streams, h, kind) == {})
  {
    EveryRunIsAccounted(cfg, states, events, k);
    hide Accounted, IsRun;
    StreamsAreCounted(states[k], cfg);
  }

  /** In every run the stream counter is zero if and only if every session whose own signal has not
      aborted has no stream; in particular once every session's own signal has aborted. */
  lemma StreamsAreGoneIff(cfg: Config, states: seq<State>, events: seq<Event>, k: nat)
    requires IsRun(cfg, states, events) && k < |states|
    ensures states[k].activeStreams == 0 <==>
            forall h :: h in states[k].sessions && !states[k].sessions[h].signalAborted ==>
              states[k].sessions[h].bidirectional == 0 && states[k].sessions[h].unidirectional == 0
    ensures (forall h :: h in states[k].sessions ==> states[k].sessions[h].signalAborted) ==> states[k].activeStreams == 0
  {
    EveryRunIsAccounted(cfg, states, events, k);
    hide Accounted, IsRun;
    NoStreamsIff(states[k], cfg);
  }

  // ----- leaving -----

  /** Nobody but `retireSession` takes a session out of the outstanding set, nothing but an offer makes one
      known, and a handle is never reused. */
  ghost predicate NobodyElseLeaves(s: State, t: State, e: Event) {
    && s.sessions.Keys <= t.sessions.Keys
    && (forall h :: h in s.outstanding && h !in t.outstanding ==> e.Retired? && e.h == h)
    && (forall h :: h in s.sessions && h in t.outstanding ==> h in s.outstanding)
    && (forall h :: h in t.sessions && h !in s.sessions ==> e.Offered? && e.h == h)
  }

  lemma SubmitKeepsHandles(s: State, cfg: Config, h: Handle, bytes: nat)
    requires h in s.sessions
    ensures var t := Submit(s, cfg, h, bytes); t.sessions.Keys == s.sessions.Keys && t.outstanding == s.outstanding
  {
    hide Charge, Settle, Refuse;
  }

  lemma ReadKeepsHandles(s: State, cfg: Config, h: Handle, arrival: Arrival)
    requires h in s.sessions && 1 <= cfg.queueSize && |s.sessions[h].feed.queue| <= cfg.queueSize
    ensures SameHandles(s, ReadDatagram(s, cfg, h, arrival))
  {
    hide F.Judge, F.Offered, F.OfferedBytes;
  }

  lemma AcceptKeepsHandles(s: State, cfg: Config, h: Handle, o: Offer)
    requires h !in s.sessions
    ensures NobodyElseLeaves(s, Accept(s, cfg, h, o), Offered(h, o))
  {
    hide IP.Acquire, IP.Release, Charge, Enter, Settle, AbandonSession, SettleAll, BytesOf;
  }

  lemma MoveServerKeepsHandles(s: State, cfg: Config, e: Srv.Event, order: seq<Handle>)
    requires Accounted(s, cfg) && Srv.Enabled(s.server, e) && Walks(s, e, order)
    ensures NobodyElseLeaves(s, MoveServer(s, cfg, e, order), ServerMoved(e, order))
  {
    hide Accounted, Srv.Step, Srv.Inv, Closing, ServerOk, Registered, IntakeStoppedAt;
    ServerIsOk(s, cfg);
    match e {
      case StopCalled(_) =>
        StopIntakeAllEffect(s, cfg, order);
        var t := StopIntakeAll(s, order);
        ClosingHandles(s, t);
        if Srv.Stops(s.server) {
          forall h | h in order ensures h in t.sessions {
            ClosingKeeps(s, t, h);
          }
          ForceAllEffect(t, cfg, order);
          ClosingHandles(t, ForceAll(t, cfg, order));
        }
      case DrainEnded =>
        NotRunningIsStopped(s, cfg);
        ForceAllEffect(s, cfg, order);
        ClosingHandles(s, ForceAll(s, cfg, order));
      case DriverStopped(_) =>
        FinalizeAllEffect(s, cfg, order);
        ClosingHandles(s, FinalizeAll(s, cfg, order));
      case _ =>
    }
  }

  lemma ClosingHandles(s: State, t: State)
    requires Closing(s, t)
    ensures t.sessions.Keys == s.sessions.Keys && t.outstanding == s.outstanding
  {
  }

  ghost predicate SameHandles(s: State, t: State) {
    t.sessions.Keys == s.sessions.Keys && t.outstanding == s.outstanding
  }

  lemma ResumeKeepsHandles(s: State, cfg: Config, h: Handle)
    requires h in s.sessions
    ensures SameHandles(s, ResumeDrain(s, cfg, h))
  {
    hide Submit, DrainLoop, EndDrain;
    var m := s.sessions[h];
    if m.feed.queue != [] {
      SubmitKeepsHandles(Put(s, h, m.(feed := F.Taken(m.feed))), cfg, h, m.feed.queue[0].size);
    }
  }

  lemma StreamKeepsHandles(s: State, cfg: Config, h: Handle, kind: StreamKind, k: StreamId, aborted: bool)
    requires h in s.sessions
    ensures SameHandles(s, ReadStream(s, cfg, h, kind, k, aborted))
  {
    hide Submit;
    SubmitKeepsHandles(if aborted then s else Track(s, h, kind, k), cfg, h, 0);
  }

  lemma AbortKeepsHandles(s: State, cfg: Config, h: Handle)
    requires h in s.sessions
    ensures SameHandles(s, AbortSignal(s, cfg, h))
  {
    hide Finalize, StreamsOf;
    AbortIsMarked(s, cfg, h);
    FinalizeKeepsSessions(Marked(s, h), cfg, h);
  }

  lemma StepKeepsHandles(s: State, cfg: Config, e: Event)
    requires cfg.Valid() && Accounted(s, cfg) && Enabled(s, cfg, e)
    ensures NobodyElseLeaves(s, Step(s, cfg, e), e)
  {
    hide Accounted, Accept, MoveServer, ReadDatagram, ResumeDrain, ReadStream, AbortSignal, AbandonSession;
    hide Enter, Leave, Settle, Start, IP.Release, Freed, DrainLoop, Observe, CanRetire, Walks, Srv.Enabled;
    match e {
      case Offered(h, offer) => AcceptKeepsHandles(s, cfg, h, offer);
      case DatagramRead(h, arrival) => ReadKeepsHandles(s, cfg, h, arrival);
      case DrainResumed(h) => ResumeKeepsHandles(s, cfg, h);
      case StreamRead(h, kind, k, aborted) => StreamKeepsHandles(s, cfg, h, kind, k, aborted);
      case SignalAborted(h) => AbortKeepsHandles(s, cfg, h);
      case ServerMoved(e, order) => MoveServerKeepsHandles(s, cfg, e, order);
      case _ =>
    }
  }

  /** A session leaves the outstanding set only by retiring, and by then it is finalized, its queue is
      empty, its admission has settled, its pumps have ended and its scheduler is closed and idle. */
  lemma LeavesOnlyWhenGone(cfg: Config, states: seq<State>, events: seq<Event>, i: nat, h: Handle)
    requires IsRun(cfg, states, events) && i < |events|
    requires h in states[i].outstanding && h !in states[i + 1].outstanding
    ensures events[i].Retired? && events[i].h == h
    ensures h in states[i].sessions && Gone(states[i].sessions[h])
  {
    EveryRunIsAccounted(cfg, states, events, i);
    hide Accounted, Gone, Step, Enabled;
    assert Enabled(states[i], cfg, events[i]) && states[i + 1] == Step(states[i], cfg, events[i]);
    StepKeepsHandles(states[i], cfg, events[i]);
    RetireeIsGone(states[i], cfg, events[i]);
  }

  lemma RetireeIsGone(s: State, cfg: Config, e: Event)
    requires cfg.Valid() && Accounted(s, cfg) && Enabled(s, cfg, e) && e.Retired?
    ensures e.h in s.sessions && Gone(s.sessions[e.h])
  {
    hide Accounted, Gone;
    RetireKeepsAccounts(s, cfg, e.h, e.now);
  }

  /** Once it has left it never comes back, and what made it leave stays true. */
  lemma GoneForGood(cfg: Config, states: seq<State>, events: seq<Event>, i: nat, k: nat, h: Handle)
    requires IsRun(cfg, states, events) && i <= k < |states|
    requires h in states[i].sessions && h !in states[i].outstanding
    ensures h in states[k].sessions && h !in states[k].outstanding
    ensures Gone(states[k].sessions[h])
  {
    StaysAway(cfg, states, events, i, k, h);
    EveryRunIsAccounted(cfg, states, events, k);
    hide Accounted, Gone, SessionOk, IsRun;
    SessionIsOk(states[k], cfg, h);
  }

  lemma {:induction false} StaysAway(cfg: Config, states: seq<State>, events: seq<Event>, i: nat, k: nat, h: Handle)
    requires IsRun(cfg, states, events) && i <= k < |states|
    requires h in states[i].sessions && h !in states[i].outstanding
    ensures h in states[k].sessions && h !in states[k].outstanding
    decreases k
  {
    hide IsRun;
    if i < k {
      RunBounds(cfg, states, events, k);
      StaysAway(cfg, states, events, i, k - 1, h);
      RunStep(cfg, states, events, k - 1);
    }
  }

  lemma RunBounds(cfg: Config, states: seq<State>, events: seq<Event>, k: nat)
    requires IsRun(cfg, states, events) && 0 < k < |states|
    ensures k - 1 < |events|
  {
    hide Step, Enabled;
  }

  lemma RunStep(cfg: Config, states: seq<State>, events: seq<Event>, k: nat)
    requires IsRun(cfg, states, events) && k < |events|
    ensures NobodyElseLeaves(states[k], states[k + 1], events[k])
  {
    EveryRunIsAccounted(cfg, states, events, k);
    hide Accounted, Step, Enabled, NobodyElseLeaves;
    StepKeepsHandles(states[k], cfg, events[k]);
  }
}
